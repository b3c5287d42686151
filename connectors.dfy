/**
  Decision rules of the connector lifecycle manager
  (`_handle_connector_configuration_update`) and of the active-connector
  handler (`_handle_active_connectors_update`), stated on values.
 */
module ConnectorRules {
  import opened Json
  import opened Projection
  import opened ChangeDetector

  /**
    The summary entry built from a connector payload: `name`, `type` and
    `configuration`, plus `key` and `class` only when they are truthy.
   */
  function NewSummary(payload: Json, fileName: Json): (r: Result<Entry>)
    ensures r.Ok? <==> payload.JObj? && "name" in payload.fields && "type" in payload.fields
    ensures r.Ok? ==>
              r.value.Keys == {"name", "type", "configuration"}
                + (if Truthy(MapGet(payload.fields, "key", JNull)) then {"key"} else {})
                + (if Truthy(MapGet(payload.fields, "class", JNull)) then {"class"} else {})
              && r.value["name"] == payload.fields["name"]
              && r.value["type"] == payload.fields["type"]
              && r.value["configuration"] == fileName
              && (forall k :: k in r.value && k in {"key", "class"} ==> r.value[k] == payload.fields[k])
  {
    var name :- Index(payload, "name");
    var kind :- Index(payload, "type");
    var base := map["name" := name, "type" := kind, "configuration" := fileName];
    var key := MapGet(payload.fields, "key", JNull);
    var cls := MapGet(payload.fields, "class", JNull);
    var withKey := if Truthy(key) then base["key" := key] else base;
    Ok(if Truthy(cls) then withKey["class" := cls] else withKey)
  }

  /**
    The summary comparison for an existing connector: name, type, class,
    key, and the log level kept in its `configurationJson` (default `{}`),
    compared in that order with Python's `or`.
   */
  function SummaryDiffers(found: Entry, payload: Json): (r: Result<bool>)
    requires payload.JObj? && "name" in payload.fields
    ensures "type" in payload.fields && MapGet(found, "configurationJson", JObj(map[])).JObj? ==>
              r == Ok(MapGet(found, "name", JNull) != payload.fields["name"]
                      || MapGet(found, "type", JNull) != payload.fields["type"]
                      || MapGet(found, "class", JNull) != MapGet(payload.fields, "class", JNull)
                      || MapGet(found, "key", JNull) != MapGet(payload.fields, "key", JNull)
                      || MapGet(MapGet(found, "configurationJson", JObj(map[])).fields, "logLevel", JNull)
                         != MapGet(payload.fields, "logLevel", JNull))
    ensures r.Ok? && MapGet(found, "name", JNull) == payload.fields["name"] ==> "type" in payload.fields
    ensures r.Err? ==> r.exc in {KeyError, AttributeError}
  {
    var p := payload.fields;
    if MapGet(found, "name", JNull) != p["name"] then Ok(true) else
    var kind :- Index(payload, "type");
    if MapGet(found, "type", JNull) != kind then Ok(true) else
    if MapGet(found, "class", JNull) != MapGet(p, "class", JNull) then Ok(true) else
    if MapGet(found, "key", JNull) != MapGet(p, "key", JNull) then Ok(true) else
    var level :- Get(MapGet(found, "configurationJson", JObj(map[])), "logLevel", JNull);
    Ok(level != MapGet(p, "logLevel", JNull))
  }

  /**
    `config['configurationJson'].update({'logLevel': ..., 'name': ...})`:
    the payload with its connector configuration stamped with the log level
    and the connector name.
   */
  function StampConfiguration(payload: Json): (r: Result<Json>)
    ensures r.Ok? <==> payload.JObj? && "configurationJson" in payload.fields
                       && payload.fields["configurationJson"].JObj?
                       && "logLevel" in payload.fields && "name" in payload.fields
    ensures r.Ok? ==>
              var cj := payload.fields["configurationJson"].fields;
              r.value == JObj(payload.fields["configurationJson" :=
                JObj(cj["logLevel" := payload.fields["logLevel"]]["name" := payload.fields["name"]])])
  {
    var cj :- Index(payload, "configurationJson");
    if !cj.JObj? then Err(AttributeError) else
    var level :- Index(payload, "logLevel");
    var name :- Index(payload, "name");
    var stamped := JObj(cj.fields + map["logLevel" := level, "name" := name]);
    assert stamped.fields == cj.fields["logLevel" := level]["name" := name];
    Ok(JObj(payload.fields["configurationJson" := stamped]))
  }

  /**
    The content comparison for an existing connector: `Ok(Some(d))` when the
    stored file exists and its content `d` differs from the incoming
    `configurationJson` (so `d` is backed up), `Ok(None)` when the file does
    not exist or holds the same content; an unparsable file raises
    ValueError and a payload without `configurationJson` KeyError.
   */
  function ContentDiff(fileName: string, payload: Json, fs: FileSystem): (r: Result<Option<Json>>)
    ensures fileName !in fs ==> r == Ok(None)
    ensures r.Ok? && r.value.Some? <==>
              fileName in fs && fs[fileName].data.Some? && payload.JObj? && "configurationJson" in payload.fields
              && fs[fileName].data.value != payload.fields["configurationJson"]
    ensures r.Ok? && r.value.Some? ==> r.value.value == fs[fileName].data.value
    ensures r.Err? ==> fileName in fs
  {
    if fileName !in fs then Ok(None)
    else match fs[fileName].data
      case None => Err(ValueError)
      case Some(stored) =>
        var incoming :- Index(payload, "configurationJson");
        Ok(if stored != incoming then Some(stored) else None)
  }

  /** `s` without the elements of `d`, in order. */
  function Without(s: seq<Json>, d: set<Json>): (r: seq<Json>)
    ensures |r| <= |s|
    ensures forall x :: x in r <==> x in s && x !in d
  {
    if s == [] then [] else (if s[0] in d then [] else [s[0]]) + Without(s[1..], d)
  }

  predicate Distinct(s: seq<Json>) {
    forall i, j :: 0 <= i < j < |s| ==> s[i] != s[j]
  }

  lemma {:induction false} WithoutDistinct(s: seq<Json>, d: set<Json>)
    requires Distinct(s)
    ensures Distinct(Without(s, d))
  {
    if s != [] {
      assert Distinct(s[1..]) by {
        forall i, j | 0 <= i < j < |s[1..]| ensures s[1..][i] != s[1..][j] {
          assert s[1..][i] == s[i + 1] && s[1..][j] == s[j + 1];
        }
      }
      WithoutDistinct(s[1..], d);
      var rest := Without(s[1..], d);
      assert s[0] !in s[1..] by {
        forall k | 0 <= k < |s[1..]| ensures s[1..][k] != s[0] { assert s[1..][k] == s[k + 1]; }
      }
      assert s[0] !in rest;
      var r := Without(s, d);
      forall i, j | 0 <= i < j < |r| ensures r[i] != r[j] {
        if s[0] !in d {
          assert r == [s[0]] + rest;
          if i == 0 { assert r[j] == rest[j - 1]; } else { assert r[i] == rest[i - 1] && r[j] == rest[j - 1]; }
        } else {
          assert r == rest;
        }
      }
    }
  }

  lemma {:induction false} WithoutNothing(s: seq<Json>)
    ensures Without(s, {}) == s
  {
    if s != [] {
      WithoutNothing(s[1..]);
    }
  }

  /** Removing one more name is removing the enlarged set. */
  lemma {:induction false} WithoutStep(s: seq<Json>, d: set<Json>, x: Json)
    ensures Without(Without(s, d), {x}) == Without(s, d + {x})
  {
    if s != [] {
      WithoutStep(s[1..], d, x);
      var w := Without(s, d);
      if s[0] in d {
        assert w == Without(s[1..], d);
      } else {
        assert w == [s[0]] + Without(s[1..], d);
        assert w[1..] == Without(s[1..], d);
      }
    }
  }

  /** The elements of `s`. */
  function ToSet(s: seq<Json>): (r: set<Json>)
    ensures forall x :: x in r <==> x in s
  {
    set x | x in s
  }

  /** Removing the first `j` names and then the next one is removing the first `j + 1` names. */
  lemma WithoutSnoc(s: seq<Json>, names: seq<Json>, j: nat)
    requires j < |names|
    ensures Without(Without(s, ToSet(names[..j])), {names[j]}) == Without(s, ToSet(names[..j + 1]))
  {
    WithoutStep(s, ToSet(names[..j]), names[j]);
    assert names[..j + 1] == names[..j] + [names[j]];
    assert ToSet(names[..j + 1]) == ToSet(names[..j]) + {names[j]};
  }

  /** Removing none of the names removes nothing. */
  lemma WithoutNone(s: seq<Json>, names: seq<Json>)
    requires names == []
    ensures Without(s, ToSet(names)) == s
  {
    assert ToSet(names) == {};
    WithoutNothing(s);
  }

  /**
    The `for_deletion` list: in iteration order, the available connectors
    that are not in the received set and whose `close()` succeeded; a
    received value that does not support `in` raises TypeError at the
    first name it is asked about.
   */
  function PruneCandidates(names: seq<Json>, received: Json, closeOk: Json -> bool): Result<seq<Json>>
    decreases |names|
  {
    if names == [] then Ok([])
    else
      var rest :- PruneCandidates(names[..|names| - 1], received, closeOk);
      var last := names[|names| - 1];
      var kept :- Contains(received, last);
      Ok(if !kept && closeOk(last) then rest + [last] else rest)
  }

  /** The available connectors that are not in the received set: those whose `close()` is called. */
  function Absent(names: seq<Json>, received: Json): seq<Json>
    decreases |names|
  {
    if names == [] then []
    else
      var last := names[|names| - 1];
      Absent(names[..|names| - 1], received) + (if Contains(received, last) == Ok(false) then [last] else [])
  }

  /**
    A connector is removed exactly when it is available, not in the
    received set and closed successfully; a received list never raises.
   */
  lemma {:induction false} PruneCandidatesSpec(names: seq<Json>, received: Json, closeOk: Json -> bool)
    decreases |names|
    ensures received.JArr? ==> PruneCandidates(names, received, closeOk).Ok?
    ensures PruneCandidates(names, received, closeOk).Err? ==>
              PruneCandidates(names, received, closeOk).exc == TypeError
    ensures PruneCandidates(names, received, closeOk).Ok? ==>
              forall x :: x in PruneCandidates(names, received, closeOk).value <==>
                x in names && Contains(received, x) == Ok(false) && closeOk(x)
  {
    if names != [] {
      var init := names[..|names| - 1];
      PruneCandidatesSpec(init, received, closeOk);
      assert names == init + [names[|names| - 1]];
      assert forall x :: x in names <==> x == names[|names| - 1] || x in init;
    }
  }

  /** The prefix of length `i + 1` is the prefix of length `i` and then element `i`. */
  lemma PrefixSnoc(names: seq<Json>, i: nat)
    requires i < |names|
    ensures names[..i + 1][..i] == names[..i] && names[..i + 1][i] == names[i]
    ensures names[..i + 1] == names[..i] + [names[i]]
  {
  }

  /** One more name of the scan: how the candidates and the closed names grow. */
  lemma PruneSnoc(names: seq<Json>, received: Json, closeOk: Json -> bool, i: nat)
    requires i < |names|
    ensures var prev := PruneCandidates(names[..i], received, closeOk);
            var member := Contains(received, names[i]);
            PruneCandidates(names[..i + 1], received, closeOk) ==
              (if prev.Err? then prev
               else if member.Err? then Err(member.exc)
               else Ok(if !member.value && closeOk(names[i]) then prev.value + [names[i]] else prev.value))
    ensures Contains(received, names[i]) == Ok(false) ==>
              Absent(names[..i + 1], received) == Absent(names[..i], received) + [names[i]]
    ensures Contains(received, names[i]) != Ok(false) ==>
              Absent(names[..i + 1], received) == Absent(names[..i], received)
  {
    PrefixSnoc(names, i);
    assert Absent(names[..i], received) + [] == Absent(names[..i], received);
  }

  /** Once a prefix of the names raises, the whole scan raises the same exception. */
  lemma {:induction false} PrunePrefixErr(names: seq<Json>, received: Json, closeOk: Json -> bool, i: nat)
    requires i <= |names| && PruneCandidates(names[..i], received, closeOk).Err?
    ensures PruneCandidates(names, received, closeOk).Err?
    ensures PruneCandidates(names, received, closeOk).exc == PruneCandidates(names[..i], received, closeOk).exc
    decreases |names|
  {
    if i == |names| {
      assert names[..i] == names;
    } else {
      var init := names[..|names| - 1];
      assert init[..i] == names[..i];
      PrunePrefixErr(init, received, closeOk, i);
    }
  }
}
