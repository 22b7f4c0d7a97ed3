/**
 The parameter of channel mode +f, `[*]lines:secs`: how the mode handler
 splits and reads it, and the canonical form it writes back.
 */
module FloodParameter {
  import opened Options
  import opened CStrings

  /** The three settings a +f parameter carries: ban as well as kick, the line limit, the window in seconds. */
  datatype FloodParam = FloodParam(ban: bool, lines: int, secs: int)

  /** The values the mode handler accepts: at least two lines in at least one second. */
  predicate Acceptable(p: FloodParam) {
    p.lines >= 2 && p.secs >= 1
  }

  /** The position of the first `c` in `s`, if any. */
  function IndexOf(s: string, c: char): (r: Option<nat>)
    ensures r.Some? ==> r.value < |s| && s[r.value] == c && c !in s[..r.value]
    ensures r.None? ==> c !in s
  {
    if s == [] then None
    else if s[0] == c then Some(0)
    else match IndexOf(s[1..], c)
      case None => None
      case Some(k) =>
        assert s[..k + 1] == [s[0]] + s[1..][..k];
        Some(k + 1)
  }

  /** The first occurrence of `c` is the one IndexOf finds. */
  lemma IndexOfFirst(s: string, c: char, k: nat)
    requires k < |s| && s[k] == c
    requires forall j :: 0 <= j < k ==> s[j] != c
    ensures IndexOf(s, c) == Some(k)
  {
  }

  /**
   What the mode handler reads from a parameter: the C string is split at its
   first ':'; a leading '*' asks for a ban; both halves go through atoi.
   None when there is no ':'.
   */
  function Parse(parameter: string): (r: Option<FloodParam>)
    ensures r.None? <==> ':' !in CString(parameter)
    ensures r.Some? ==> (r.value.ban <==> parameter != [] && parameter[0] == '*')
  {
    var c := CString(parameter);
    match IndexOf(c, ':')
    case None => None
    case Some(k) =>
      var ban := c[0] == '*';
      var start := if ban then 1 else 0;
      Some(FloodParam(ban, Atoi(c[start..k]), Atoi(c[k + 1..])))
  }

  /**
   The scan for the separator: walks the parameter up to its terminating NUL
   and stops at the first ':'.
   */
  method FindColon(parameter: string) returns (colon: Option<nat>)
    ensures colon == IndexOf(CString(parameter), ':')
  {
    var i := 0;
    while i < |parameter| && parameter[i] != '\0'
      invariant 0 <= i <= |parameter|
      invariant forall j :: 0 <= j < i ==> parameter[j] != '\0' && parameter[j] != ':'
    {
      if parameter[i] == ':' {
        ghost var c := CString(parameter);
        assert i < |c|;
        IndexOfFirst(c, ':', i);
        return Some(i);
      }
      i := i + 1;
    }
    ghost var c := CString(parameter);
    assert |c| == i;
    return None;
  }

  /** The canonical parameter: `*` when banning, then `lines:secs` in decimal. */
  function Canonical(p: FloodParam): (s: string)
    ensures s != [] && (s[0] == '*' <==> p.ban)
  {
    (if p.ban then "*" else "") + IntToString(p.lines) + ":" + IntToString(p.secs)
  }

  /** A string without NUL is its own C string. */
  lemma CStringWithoutNul(s: string)
    requires forall i :: 0 <= i < |s| ==> s[i] != '\0'
    ensures CString(s) == s
  {
  }

  /** How Parse reads a NUL-free parameter whose first ':' is at `k`. */
  lemma ParseAt(s: string, k: nat)
    requires forall i :: 0 <= i < |s| ==> s[i] != '\0'
    requires k < |s| && s[k] == ':' && forall j :: 0 <= j < k ==> s[j] != ':'
    ensures var start := if s[0] == '*' then 1 else 0;
      start <= k && Parse(s) == Some(FloodParam(s[0] == '*', Atoi(s[start..k]), Atoi(s[k + 1..])))
  {
    CStringWithoutNul(s);
    IndexOfFirst(s, ':', k);
  }

  /** Decimal notation has neither a NUL nor a ':'. */
  lemma IntToStringPlain(i: int)
    ensures forall j :: 0 <= j < |IntToString(i)| ==> IntToString(i)[j] != '\0' && IntToString(i)[j] != ':'
  {
    var l := IntToString(i);
    assert forall j :: 0 <= j < |l| ==> l[j] == '-' || IsDigit(l[j]);
  }

  /** Where the separator sits in `a + ":" + b`, when `a` has no ':'. */
  lemma JoinLayout(a: string, b: string)
    requires forall j :: 0 <= j < |a| ==> a[j] != '\0' && a[j] != ':'
    requires forall j :: 0 <= j < |b| ==> b[j] != '\0'
    ensures var s := a + ":" + b;
      && (forall j :: 0 <= j < |s| ==> s[j] != '\0')
      && |a| < |s| && s[|a|] == ':' && (forall j :: 0 <= j < |a| ==> s[j] != ':')
      && s[..|a|] == a && s[|a| + 1..] == b
  {
    var s := a + ":" + b;
    assert forall j :: |a| < j < |s| ==> s[j] == b[j - |a| - 1];
    assert s[|a| + 1..] == b;
  }

  /** Parsing the canonical parameter gives back the settings it was written from. */
  lemma ParseCanonical(p: FloodParam)
    ensures Parse(Canonical(p)) == Some(p)
  {
    var prefix := if p.ban then "*" else "";
    var l, r := IntToString(p.lines), IntToString(p.secs);
    IntToStringPlain(p.lines);
    IntToStringPlain(p.secs);
    var a := prefix + l;
    assert forall j :: |prefix| <= j < |a| ==> a[j] == l[j - |prefix|];
    JoinLayout(a, r);
    var s := a + ":" + r;
    assert Canonical(p) == s;
    assert s[|prefix|..|a|] == a[|prefix|..] == l;
    ParseAt(s, |a|);
    AtoiOfIntToString(p.lines);
    AtoiOfIntToString(p.secs);
  }

  /** Two settings have the same canonical parameter exactly when they are equal. */
  lemma CanonicalInjective(p: FloodParam, q: FloodParam)
    ensures Canonical(p) == Canonical(q) <==> p == q
  {
    if Canonical(p) == Canonical(q) {
      ParseCanonical(p);
      ParseCanonical(q);
    }
  }
}
