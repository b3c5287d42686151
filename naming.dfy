/**
  Names the configurator constructs from strings: the path of a backup copy
  of a configuration file (`create_configuration_file_backup`) and the
  attribute key under which a connector type's default configuration is
  published.
 */
module Naming {

  predicate IsDigit(c: char) { '0' <= c <= '9' }

  predicate AllDigits(s: string) { forall i :: 0 <= i < |s| ==> IsDigit(s[i]) }

  function DigitChar(d: nat): (c: char)
    requires d < 10
    ensures IsDigit(c)
  {
    ['0', '1', '2', '3', '4', '5', '6', '7', '8', '9'][d]
  }

  function DigitValue(c: char): nat
    requires IsDigit(c)
  {
    c as int - '0' as int
  }

  /** Python's `str(n)` for a non-negative integer. */
  function NatToString(n: nat): (s: string)
    ensures |s| > 0 && AllDigits(s)
    ensures s[0] == '0' ==> n == 0
  {
    if n < 10 then [DigitChar(n)] else NatToString(n / 10) + [DigitChar(n % 10)]
  }

  /** Reads a string of decimal digits back as a number (most significant first). */
  function ParseDigits(s: string): nat
    requires AllDigits(s)
  {
    if s == [] then 0 else ParseDigits(s[..|s| - 1]) * 10 + DigitValue(s[|s| - 1])
  }

  /** `str(n)` is read back as `n`: the timestamp in a backup name is recoverable. */
  lemma {:induction false} ParseNatToString(n: nat)
    ensures ParseDigits(NatToString(n)) == n
  {
    var s := NatToString(n);
    if n < 10 {
      assert s[..0] == [];
      assert DigitValue(DigitChar(n)) == n;
    } else {
      var p := NatToString(n / 10);
      assert s[..|s| - 1] == p;
      ParseNatToString(n / 10);
      assert DigitValue(DigitChar(n % 10)) == n % 10;
    }
  }

  lemma NatToStringInjective(m: nat, n: nat)
    requires NatToString(m) == NatToString(n)
    ensures m == n
  {
    ParseNatToString(m);
    ParseNatToString(n);
  }

  const BackupDir: string := "backup"
  const PathSep: string := "/"
  const BackupInfix: string := "_backup_"

  /**
    Path, relative to the configuration directory, of the backup written for
    `fileName` at wall-clock second `seconds`.
   */
  function BackupPath(fileName: string, seconds: nat): (p: string)
    ensures |p| > |BackupDir + PathSep + fileName + BackupInfix|
    ensures p[..|BackupDir + PathSep + fileName|] == BackupDir + PathSep + fileName
  {
    BackupDir + PathSep + fileName + BackupInfix + NatToString(seconds)
  }

  /** A string ending in `sep + d` with `sep` ending in a non-digit and `d` all digits. */
  lemma {:induction false} DigitSuffixUnique(a: string, b: string, d1: string, d2: string)
    requires AllDigits(d1) && AllDigits(d2)
    requires |a| > 0 && !IsDigit(a[|a| - 1]) && |b| > 0 && !IsDigit(b[|b| - 1])
    requires a + d1 == b + d2
    ensures a == b && d1 == d2
  {
    var s := a + d1;
    assert a == s[..|a|];
    assert b == (b + d2)[..|b|];
  }

  /**
    Two backups share a path only when they are of the same file and were
    taken in the same second: backups taken in different seconds or of
    different files never overwrite each other.
   */
  lemma BackupPathInjective(f1: string, t1: nat, f2: string, t2: nat)
    requires BackupPath(f1, t1) == BackupPath(f2, t2)
    ensures f1 == f2 && t1 == t2
  {
    var a := BackupDir + PathSep + f1 + BackupInfix;
    var b := BackupDir + PathSep + f2 + BackupInfix;
    assert a[|a| - 1] == '_' && b[|b| - 1] == '_';
    DigitSuffixUnique(a, b, NatToString(t1), NatToString(t2));
    NatToStringInjective(t1, t2);
    assert f1 == a[|BackupDir + PathSep|..|a| - |BackupInfix|];
    assert f2 == b[|BackupDir + PathSep|..|b| - |BackupInfix|];
  }

  /**
    As a path string, a backup never equals the file it backs up (it is
    longer) nor any path that does not start with the backup directory.
   */
  lemma BackupPathDistinct(fileName: string, seconds: nat, other: string)
    requires other == fileName || !(BackupDir + PathSep <= other)
    ensures BackupPath(fileName, seconds) != other
  {
    var p := BackupPath(fileName, seconds);
    var dir := BackupDir + PathSep;
    assert p[..|dir|] == (dir + fileName)[..|dir|] == dir;
    assert dir <= p;
  }

  /** ASCII upper-casing of one character. */
  function UpperChar(c: char): (u: char)
    ensures !('a' <= u <= 'z')
  {
    if 'a' <= c <= 'z' then (c as int - 'a' as int + 'A' as int) as char else c
  }

  /** `str.upper()` restricted to ASCII letters. */
  function Upper(s: string): (u: string)
    ensures |u| == |s|
    ensures forall i :: 0 <= i < |u| ==> u[i] == UpperChar(s[i])
  {
    if s == [] then [] else [UpperChar(s[0])] + Upper(s[1..])
  }

  /** Upper-casing twice is upper-casing once. */
  lemma UpperIdempotent(s: string)
    ensures Upper(Upper(s)) == Upper(s)
  {
    var u := Upper(s);
    forall i | 0 <= i < |u| ensures Upper(u)[i] == u[i] {
      assert UpperChar(u[i]) == u[i];
    }
  }

  const DefaultConfigSuffix: string := "_DEFAULT_CONFIG"

  /** Attribute key under which the default configuration of a connector type is published. */
  function DefaultConfigKey(connectorType: string): (k: string)
    ensures |k| == |connectorType| + |DefaultConfigSuffix|
    ensures k[|connectorType|..] == DefaultConfigSuffix
    ensures forall i :: 0 <= i < |connectorType| ==> k[i] == UpperChar(connectorType[i])
  {
    Upper(connectorType) + DefaultConfigSuffix
  }

  /** Connector types that differ only in letter case share one default-config key. */
  lemma DefaultConfigKeyCaseInsensitive(s: string, t: string)
    ensures Upper(s) == Upper(t) ==> DefaultConfigKey(s) == DefaultConfigKey(t)
    ensures DefaultConfigKey(Upper(t)) == DefaultConfigKey(t)
  {
    UpperIdempotent(t);
  }
}
