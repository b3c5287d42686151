/**
  The connector list of the general configuration and the views the
  configurator derives from it: the field stripping of the
  `connectors_configuration` property, the active-connector names, the
  file ("local") format of the general configuration, lookup by name and
  the order-preserving filter used when active connectors are pruned.
 */
module Projection {
  import opened Json

  /** One summary entry of `_config['connectors']`. */
  type Entry = map<string, Json>

  /** Bookkeeping fields the gateway adds to an entry and that are never persisted. */
  const TransientFields: set<string> := {"config_updated", "config_file_path"}

  function StripEntry(e: Entry): (r: Entry)
    ensures r.Keys == e.Keys - TransientFields
    ensures forall k :: k in r ==> r[k] == e[k]
  {
    e - TransientFields
  }

  /** The entries as the `connectors_configuration` property leaves them. */
  function StripAll(cs: seq<Entry>): (r: seq<Entry>)
    ensures |r| == |cs|
    ensures forall i :: 0 <= i < |cs| ==> r[i] == StripEntry(cs[i])
  {
    seq(|cs|, i requires 0 <= i < |cs| => StripEntry(cs[i]))
  }

  /** Stripping removes exactly the transient fields from every entry and is idempotent. */
  lemma StripAllProperties(cs: seq<Entry>)
    ensures forall i :: 0 <= i < |cs| ==> StripAll(cs)[i].Keys !! TransientFields
    ensures forall i, k :: 0 <= i < |cs| && k in cs[i] && k !in TransientFields ==>
              k in StripAll(cs)[i] && StripAll(cs)[i][k] == cs[i][k]
    ensures StripAll(StripAll(cs)) == StripAll(cs)
  {
    var once := StripAll(cs);
    forall i | 0 <= i < |cs| ensures StripAll(once)[i] == once[i] {
      assert once[i] - TransientFields == once[i];
    }
  }

  /** No entry carries a transient field. */
  predicate IsStripped(cs: seq<Entry>) {
    forall e :: e in cs ==> e.Keys !! TransientFields
  }

  /** Entries without transient fields are left as they are. */
  lemma StripAllFixed(cs: seq<Entry>)
    requires IsStripped(cs)
    ensures StripAll(cs) == cs
  {
    forall i | 0 <= i < |cs| ensures StripAll(cs)[i] == cs[i] {
      assert cs[i] in cs;
    }
  }

  /** The name key of an entry, when present. */
  predicate HasName(e: Entry) { "name" in e }

  /** No two entries carry the same name. */
  predicate NamesUnique(cs: seq<Entry>) {
    forall i, j :: 0 <= i < j < |cs| && HasName(cs[i]) && HasName(cs[j]) ==> cs[i]["name"] != cs[j]["name"]
  }

  lemma StripPreservesUnique(cs: seq<Entry>)
    requires NamesUnique(cs)
    ensures NamesUnique(StripAll(cs))
  {
    var r := StripAll(cs);
    forall i, j | 0 <= i < j < |r| && HasName(r[i]) && HasName(r[j]) ensures r[i]["name"] != r[j]["name"] {
      assert r[i]["name"] == cs[i]["name"] && r[j]["name"] == cs[j]["name"];
    }
  }

  /** `[connector['name'] for connector in cs]`. */
  function ActiveNames(cs: seq<Entry>): (r: Result<seq<Json>>)
  {
    if cs == [] then Ok([])
    else if !HasName(cs[0]) then Err(KeyError)
    else
      var rest :- ActiveNames(cs[1..]);
      Ok([cs[0]["name"]] + rest)
  }

  /** The names are those of the entries, in order; a nameless entry raises KeyError. */
  lemma {:induction false} ActiveNamesSpec(cs: seq<Entry>)
    ensures ActiveNames(cs).Ok? <==> forall i :: 0 <= i < |cs| ==> HasName(cs[i])
    ensures ActiveNames(cs).Err? ==> ActiveNames(cs).exc == KeyError
    ensures ActiveNames(cs).Ok? ==>
              |ActiveNames(cs).value| == |cs| &&
              forall i :: 0 <= i < |cs| ==> ActiveNames(cs).value[i] == cs[i]["name"]
  {
    if cs != [] {
      ActiveNamesSpec(cs[1..]);
      assert forall i :: 1 <= i < |cs| ==> cs[i] == cs[1..][i - 1];
    }
  }

  /** `{'type': c['type'], 'name': c['name'], 'configuration': c['configuration']}`. */
  function LocalEntry(e: Entry): Result<Json> {
    if "type" !in e || "name" !in e || "configuration" !in e then Err(KeyError)
    else Ok(JObj(map["type" := e["type"], "name" := e["name"], "configuration" := e["configuration"]]))
  }

  const LocalEntryFields: set<string> := {"type", "name", "configuration"}

  /** The connector list as written to the general configuration file. */
  function LocalConnectors(cs: seq<Entry>): (r: Result<seq<Json>>)
  {
    if cs == [] then Ok([])
    else
      var head :- LocalEntry(cs[0]);
      var rest :- LocalConnectors(cs[1..]);
      Ok([head] + rest)
  }

  predicate Summarisable(e: Entry) { LocalEntryFields <= e.Keys }

  /**
    The file format keeps, for every entry and in the original order, exactly
    its `type`, `name` and `configuration` fields; an entry missing one of
    them raises KeyError.
   */
  lemma {:induction false} LocalConnectorsSpec(cs: seq<Entry>)
    ensures LocalConnectors(cs).Ok? <==> forall i :: 0 <= i < |cs| ==> Summarisable(cs[i])
    ensures LocalConnectors(cs).Err? ==> LocalConnectors(cs).exc == KeyError
    ensures LocalConnectors(cs).Ok? ==>
              |LocalConnectors(cs).value| == |cs| &&
              forall i :: 0 <= i < |cs| ==>
                var v := LocalConnectors(cs).value[i];
                v.JObj? && v.fields.Keys == LocalEntryFields &&
                forall k :: k in LocalEntryFields ==> v.fields[k] == cs[i][k]
  {
    if cs != [] {
      var rest := cs[1..];
      LocalConnectorsSpec(rest);
      assert forall i :: 1 <= i < |cs| ==> cs[i] == rest[i - 1];
      if LocalConnectors(cs).Ok? {
        var r := LocalConnectors(cs).value;
        var tail := LocalConnectors(rest).value;
        assert r == [LocalEntry(cs[0]).value] + tail;
        assert forall i :: 1 <= i < |cs| ==> r[i] == tail[i - 1];
      }
    }
  }

  /**
    `list(filter(lambda item: item['name'] == payload['name'], cs))`; the
    payload's name is looked up once per entry, so an empty list never looks.
   */
  function FindByName(cs: seq<Entry>, payload: Json): Result<seq<Entry>>
  {
    if cs == [] then Ok([])
    else if !HasName(cs[0]) then Err(KeyError)
    else
      var name :- Index(payload, "name");
      var rest :- FindByName(cs[1..], payload);
      Ok(if cs[0]["name"] == name then [cs[0]] + rest else rest)
  }

  /** Position of the first entry named `name`, if any. */
  function FirstNamed(cs: seq<Entry>, name: Json): (r: Option<nat>)
    ensures r.Some? ==> r.value < |cs| && HasName(cs[r.value]) && cs[r.value]["name"] == name
    ensures r.Some? ==> forall i :: 0 <= i < r.value && HasName(cs[i]) ==> cs[i]["name"] != name
    ensures r.None? ==> forall i :: 0 <= i < |cs| && HasName(cs[i]) ==> cs[i]["name"] != name
  {
    if cs == [] then None
    else if HasName(cs[0]) && cs[0]["name"] == name then Some(0)
    else
      match FirstNamed(cs[1..], name)
      case None => None
      case Some(k) => Some(k + 1)
  }

  /**
    Lookup by name succeeds exactly when every entry has a name and, unless
    the list is empty, the payload is a dictionary with a name; the entries
    found are those carrying that name, so with unique names at most one is
    found, and it is the one `FirstNamed` points at.
   */
  lemma {:induction false} FindByNameSpec(cs: seq<Entry>, payload: Json)
    ensures FindByName(cs, payload).Ok? <==>
              (forall i :: 0 <= i < |cs| ==> HasName(cs[i])) && (cs != [] ==> Index(payload, "name").Ok?)
    ensures FindByName(cs, payload).Ok? && cs != [] ==>
              var name := payload.fields["name"];
              var found := FindByName(cs, payload).value;
              (found == [] <==> FirstNamed(cs, name).None?) &&
              (found != [] ==> found[0] == cs[FirstNamed(cs, name).value]) &&
              (NamesUnique(cs) ==> |found| <= 1)
  {
    if cs != [] {
      FindByNameSpec(cs[1..], payload);
      assert forall i :: 1 <= i < |cs| ==> cs[i] == cs[1..][i - 1];
      if FindByName(cs, payload).Ok? && |cs| > 1 && NamesUnique(cs) {
        var name := payload.fields["name"];
        assert NamesUnique(cs[1..]) by {
          forall i, j | 0 <= i < j < |cs[1..]| && HasName(cs[1..][i]) && HasName(cs[1..][j])
            ensures cs[1..][i]["name"] != cs[1..][j]["name"]
          {
            assert cs[1..][i] == cs[i + 1] && cs[1..][j] == cs[j + 1];
          }
        }
        if cs[0]["name"] == name {
          assert FirstNamed(cs[1..], name).None?;
        }
      }
    }
  }

  /** Appending an entry whose name no entry carries keeps names unique. */
  lemma AppendFreshPreservesUnique(cs: seq<Entry>, e: Entry)
    requires NamesUnique(cs) && HasName(e)
    requires forall i :: 0 <= i < |cs| && HasName(cs[i]) ==> cs[i]["name"] != e["name"]
    ensures NamesUnique(cs + [e])
  {
  }

  /** Replacing an entry by one with the same name keeps names unique. */
  lemma ReplaceSameNamePreservesUnique(cs: seq<Entry>, k: nat, e: Entry)
    requires NamesUnique(cs) && k < |cs| && HasName(cs[k]) && HasName(e) && e["name"] == cs[k]["name"]
    ensures NamesUnique(cs[k := e])
  {
  }

  /**
    `list(filter(lambda c: c['name'] in names, cs))`, evaluated entry by
    entry: a nameless entry raises KeyError, a container that does not
    support `in` raises TypeError.
   */
  function FilterByNames(cs: seq<Entry>, names: Json): Result<seq<Entry>>
  {
    if cs == [] then Ok([])
    else if !HasName(cs[0]) then Err(KeyError)
    else
      var keep :- Contains(names, cs[0]["name"]);
      var rest :- FilterByNames(cs[1..], names);
      Ok(if keep then [cs[0]] + rest else rest)
  }

  /** `sub` is obtained from `s` by deleting some elements, keeping the order. */
  predicate IsSubsequence<T(==)>(sub: seq<T>, s: seq<T>) {
    if sub == [] then true
    else if s == [] then false
    else if sub[0] == s[0] then IsSubsequence(sub[1..], s[1..])
    else IsSubsequence(sub, s[1..])
  }

  lemma {:induction false} SubsequenceUnique(sub: seq<Entry>, s: seq<Entry>)
    requires IsSubsequence(sub, s) && NamesUnique(s)
    ensures NamesUnique(sub)
    ensures forall x :: x in sub ==> x in s
  {
    if sub != [] {
      assert s != [];
      assert NamesUnique(s[1..]) by {
        forall i, j | 0 <= i < j < |s[1..]| && HasName(s[1..][i]) && HasName(s[1..][j])
          ensures s[1..][i]["name"] != s[1..][j]["name"]
        {
          assert s[1..][i] == s[i + 1] && s[1..][j] == s[j + 1];
        }
      }
      if sub[0] == s[0] {
        SubsequenceUnique(sub[1..], s[1..]);
        forall i, j | 0 <= i < j < |sub| && HasName(sub[i]) && HasName(sub[j])
          ensures sub[i]["name"] != sub[j]["name"]
        {
          if i == 0 {
            assert sub[j] == sub[1..][j - 1];
            assert sub[j] in sub[1..];
            assert sub[j] in s[1..];
            var k :| 0 <= k < |s[1..]| && s[1..][k] == sub[j];
            assert s[k + 1] == sub[j];
          } else {
            assert sub[i] == sub[1..][i - 1] && sub[j] == sub[1..][j - 1];
          }
        }
        forall x | x in sub ensures x in s {
          if x != sub[0] { assert x in sub[1..]; }
        }
      } else {
        SubsequenceUnique(sub, s[1..]);
      }
    }
  }

  /**
    Pruning keeps, in their original order, exactly the entries whose name
    is in `names`; it raises only KeyError (a nameless entry) or TypeError
    (`names` does not support `in`), and keeps names unique.
   */
  lemma {:induction false} FilterByNamesSpec(cs: seq<Entry>, names: Json)
    ensures FilterByNames(cs, names).Err? ==> FilterByNames(cs, names).exc in {KeyError, TypeError}
    ensures FilterByNames(cs, names).Ok? ==>
              var r := FilterByNames(cs, names).value;
              IsSubsequence(r, cs) &&
              (forall i :: 0 <= i < |cs| ==> HasName(cs[i])) &&
              (forall e :: e in r ==> HasName(e) && Contains(names, e["name"]) == Ok(true)) &&
              (forall e :: e in cs && e !in r ==> HasName(e) && Contains(names, e["name"]) == Ok(false)) &&
              (NamesUnique(cs) ==> NamesUnique(r))
  {
    if cs != [] && FilterByNames(cs, names).Ok? {
      FilterByNamesSpec(cs[1..], names);
      assert forall i :: 1 <= i < |cs| ==> cs[i] == cs[1..][i - 1];
      var keep := Contains(names, cs[0]["name"]).value;
      var r := FilterByNames(cs, names).value;
      var rest := FilterByNames(cs[1..], names).value;
      if keep {
        assert r == [cs[0]] + rest && r[1..] == rest;
      } else {
        SubsequenceSkip(rest, cs);
      }
      if NamesUnique(cs) {
        SubsequenceUnique(r, cs);
      }
    } else if cs != [] {
      FilterByNamesSpec(cs[1..], names);
    }
  }

  lemma SubsequenceSkip<T>(sub: seq<T>, s: seq<T>)
    requires s != [] && IsSubsequence(sub, s[1..])
    ensures IsSubsequence(sub, s)
    decreases |s|, 1
  {
    if sub != [] && sub[0] == s[0] {
      SubsequenceDropHead(sub, s[1..]);
    }
  }

  lemma SubsequenceDropHead<T>(sub: seq<T>, t: seq<T>)
    requires sub != [] && IsSubsequence(sub, t)
    ensures IsSubsequence(sub[1..], t)
    decreases |t| + 1, 0
  {
    if sub[0] == t[0] {
      SubsequenceSkip(sub[1..], t);
    } else {
      SubsequenceDropHead(sub, t[1..]);
      SubsequenceSkip(sub[1..], t);
    }
  }
}
