/**
 * The scalar JSON values that reach the webhook, as Python sees them after
 * `json.loads`, with the parts of Python's semantics the core relies on:
 * truthiness, `==` (where `True == 1`), `dict.get`, `str()` and `str.strip()`.
 */
module PyValues {
  import opened Wrappers

  /** A JSON scalar: `null`, a boolean, an integer or a string. */
  datatype Val = VNone | VBool(b: bool) | VInt(n: int) | VStr(s: string)

  /** Python truthiness, as used by `if x:` and `not x`. */
  predicate Truthy(v: Val) {
    match v
    case VNone => false
    case VBool(b) => b
    case VInt(n) => n != 0
    case VStr(s) => s != ""
  }

  /** `d.get(k)` on a decoded JSON object: the value under `k`, or `None`. */
  function Get<K>(d: map<K, Val>, k: K): Val {
    if k in d then d[k] else VNone
  }

  /** `d.get(k, default)`. */
  function GetOr<K>(d: map<K, Val>, k: K, default: Val): Val {
    if k in d then d[k] else default
  }

  /** The integer a number stands for; a bool is the integer 0 or 1 in Python. */
  function Numeric(v: Val): Option<int> {
    match v
    case VBool(b) => Some(if b then 1 else 0)
    case VInt(n) => Some(n)
    case _ => None
  }

  /** Python's `a == b` on JSON scalars: numbers (bools included) by value, the rest structurally. */
  predicate PyEq(a: Val, b: Val) {
    if Numeric(a).Some? || Numeric(b).Some? then Numeric(a) == Numeric(b) else a == b
  }

  /**
   * `==` is an equivalence on JSON scalars; it equates `True` with `1` and
   * `False` with `0`, but never a string with a number.
   */
  lemma PyEqIsEquivalence(a: Val, b: Val, c: Val)
    ensures PyEq(a, a)
    ensures PyEq(a, b) ==> PyEq(b, a)
    ensures PyEq(a, b) && PyEq(b, c) ==> PyEq(a, c)
    ensures PyEq(VBool(true), VInt(1)) && PyEq(VBool(false), VInt(0))
    ensures a.VStr? && PyEq(a, b) ==> a == b
    ensures !PyEq(VStr("1"), VInt(1))
  {
  }

  /** The falsy scalars are exactly `None`, `False`, `0` and `""`. */
  lemma FalsyValues(v: Val)
    ensures !Truthy(v) <==> v == VNone || v == VBool(false) || v == VInt(0) || v == VStr("")
    ensures PyEq(v, VInt(0)) ==> !Truthy(v)
  {
  }

  /** The decimal digits of a natural number. */
  function Digits(n: nat): (r: string)
    ensures r != [] && forall i :: 0 <= i < |r| ==> '0' <= r[i] <= '9'
    ensures DecimalValue(r) == n
    ensures n > 0 ==> r[0] != '0'
    ensures |r| == 1 || r[0] != '0'
    decreases n
  {
    var d := ['0' + (n % 10) as char];
    if n < 10 then d else
      var prefix := Digits(n / 10);
      assert (prefix + d)[..|prefix|] == prefix;
      prefix + d
  }

  /** The number a string of decimal digits denotes, read most significant digit first. */
  function DecimalValue(s: string): int {
    if s == [] then 0
    else DecimalValue(s[..|s| - 1]) * 10 + (s[|s| - 1] as int - '0' as int)
  }

  /** `str(v)`, as an f-string renders it. */
  function PyStr(v: Val): (r: string)
    ensures v.VInt? ==> r != [] && (r[0] == '-' <==> v.n < 0)
    ensures v.VInt? ==> forall i :: 0 < i < |r| ==> '0' <= r[i] <= '9'
    ensures v.VInt? && v.n >= 0 ==> DecimalValue(r) == v.n && '0' <= r[0] <= '9'
    ensures v.VInt? && v.n < 0 ==> |r| >= 2 && (|r| == 2 || r[1] != '0')
    ensures v.VInt? && v.n < 0 ==> DecimalValue(r[1..]) == -v.n
    ensures v.VInt? && |r| > 1 ==> r[0] != '0'
    ensures v.VStr? ==> r == v.s
    ensures v.VNone? ==> r == "None"
    ensures v.VBool? ==> r == (if v.b then "True" else "False")
  {
    match v
    case VNone => "None"
    case VBool(b) => if b then "True" else "False"
    case VInt(n) => if n < 0 then "-" + Digits(-n) else Digits(n)
    case VStr(s) => s
  }

  /** The characters `str.isspace()` accepts, which `str.strip()` removes. */
  predicate IsSpace(c: char) {
    || c == ' '
    || ('\t' <= c <= '\r')
    || ('\U{1c}' <= c <= '\U{1f}')
    || c == '\U{85}' || c == '\U{a0}' || c == '\U{1680}'
    || ('\U{2000}' <= c <= '\U{200a}')
    || c == '\U{2028}' || c == '\U{2029}' || c == '\U{202f}' || c == '\U{205f}' || c == '\U{3000}'
  }

  predicate AllSpace(s: string) {
    forall i :: 0 <= i < |s| ==> IsSpace(s[i])
  }

  /** `s.lstrip()`: the suffix of `s` left after its leading white space. */
  function TrimStart(s: string): (r: string)
    ensures |r| <= |s| && r == s[|s| - |r|..]
    ensures AllSpace(s[..|s| - |r|])
    ensures r == [] || !IsSpace(r[0])
  {
    if |s| > 0 && IsSpace(s[0]) then
      var r := TrimStart(s[1..]);
      var k := |s| - |r|;
      assert forall i | 1 <= i < k :: s[..k][i] == s[1..][..k - 1][i - 1];
      r
    else s
  }

  /** `s.rstrip()`: the prefix of `s` left before its trailing white space. */
  function TrimEnd(s: string): (r: string)
    ensures |r| <= |s| && r == s[..|r|]
    ensures AllSpace(s[|r|..])
    ensures r == [] || !IsSpace(r[|r| - 1])
  {
    if |s| > 0 && IsSpace(s[|s| - 1]) then
      var r := TrimEnd(s[..|s| - 1]);
      assert s[|r|..] == s[..|s| - 1][|r|..] + [s[|s| - 1]];
      r
    else s
  }

  /**
   * `s.strip()`: white space is removed at both ends and nothing else, so the
   * result is empty exactly for blank text, and otherwise starts and ends with
   * a character that is not white space.
   */
  function Strip(s: string): (r: string)
    ensures exists i, j :: 0 <= i <= j <= |s| && r == s[i..j] && AllSpace(s[..i]) && AllSpace(s[j..])
    ensures |r| <= |s|
    ensures r == [] <==> AllSpace(s)
    ensures r == [] || (!IsSpace(r[0]) && !IsSpace(r[|r| - 1]))
  {
    TrimBothEnds(s);
    TrimmedIsSlice(s);
    TrimEnd(TrimStart(s))
  }

  lemma TrimBothEnds(s: string)
    ensures var r := TrimEnd(TrimStart(s));
      && |r| <= |s|
      && (r == [] <==> AllSpace(s))
      && (r == [] || (!IsSpace(r[0]) && !IsSpace(r[|r| - 1])))
  {
    var t := TrimStart(s);
    var r := TrimEnd(t);
    if r != [] {
      assert !IsSpace(r[0]) && r[0] == t[0] == s[|s| - |t|];
    } else if t != [] {
      // The blank remainder `t[0..]` would start with the non-space `t[0]`.
      assert false;
    } else {
      assert s[..|s| - |t|] == s;
    }
  }

  /** Trimming both ends leaves the slice of `s` between a leading and a trailing run of white space. */
  lemma TrimmedIsSlice(s: string)
    ensures var r := TrimEnd(TrimStart(s));
      exists i, j :: 0 <= i <= j <= |s| && r == s[i..j] && AllSpace(s[..i]) && AllSpace(s[j..])
  {
    var t := TrimStart(s);
    SliceOfSlice(s, t, TrimEnd(t));
  }

  /** A prefix `r` of a suffix `t` of `s`, each cut off at white space, is a slice of `s` between white space. */
  lemma SliceOfSlice(s: string, t: string, r: string)
    requires |t| <= |s| && t == s[|s| - |t|..] && AllSpace(s[..|s| - |t|])
    requires |r| <= |t| && r == t[..|r|] && AllSpace(t[|r|..])
    ensures exists i, j :: 0 <= i <= j <= |s| && r == s[i..j] && AllSpace(s[..i]) && AllSpace(s[j..])
  {
    var i := |s| - |t|;
    var j := i + |r|;
    assert r == s[i..j];
    assert s[j..] == t[|r|..];
  }

  /** `s` is a single comma with nothing but white space around it. */
  predicate LoneComma(s: string) {
    exists k :: 0 <= k < |s| && s[k] == ',' && AllSpace(s[..k]) && AllSpace(s[k + 1..])
  }

  /** White space followed by a non-space character: `lstrip` stops at that character. */
  lemma {:induction false} TrimStartStopsAt(s: string, j: nat)
    requires j < |s| && AllSpace(s[..j]) && !IsSpace(s[j])
    ensures TrimStart(s) == s[j..]
  {
    if j > 0 {
      assert IsSpace(s[..j][0]);
      assert s[1..][..j - 1] == s[1..j];
      TrimStartStopsAt(s[1..], j - 1);
      assert s[1..][j - 1..] == s[j..];
    }
  }

  /** A comma followed by white space: `rstrip` leaves the comma alone. */
  lemma {:induction false} TrimEndKeepsComma(w: string)
    requires AllSpace(w)
    ensures TrimEnd([','] + w) == ","
  {
    assert !IsSpace(',');
    if w != [] {
      var t := [','] + w;
      assert t[|t| - 1] == w[|w| - 1];
      assert t[..|t| - 1] == [','] + w[..|w| - 1];
      TrimEndKeepsComma(w[..|w| - 1]);
    }
  }

  /** A stripped lone comma comes from a comma padded with white space. */
  lemma StrippedCommaIsLone(s: string)
    requires Strip(s) == ","
    ensures LoneComma(s)
  {
    var t := TrimStart(s);
    var k := |s| - |t|;
    assert TrimEnd(t) == t[..1];
    assert s[k] == t[0];
    assert s[k + 1..] == t[1..];
  }

  /** A comma padded with white space strips to a lone comma. */
  lemma LoneCommaStrips(s: string)
    requires LoneComma(s)
    ensures Strip(s) == ","
  {
    var j :| 0 <= j < |s| && s[j] == ',' && AllSpace(s[..j]) && AllSpace(s[j + 1..]);
    CommaAtStrips(s, j);
  }

  /** The same, with the comma's position given. */
  lemma CommaAtStrips(s: string, j: nat)
    requires j < |s| && s[j] == ',' && AllSpace(s[..j]) && AllSpace(s[j + 1..])
    ensures Strip(s) == ","
  {
    var w := s[j + 1..];
    assert !IsSpace(',');
    TrimStartStopsAt(s, j);
    assert TrimStart(s) == [','] + w;
    TrimEndKeepsComma(w);
  }

  /** `s.strip() == ","` holds exactly when `s` is a comma padded with white space. */
  lemma StripIsLoneComma(s: string)
    ensures Strip(s) == "," <==> LoneComma(s)
  {
    if Strip(s) == "," {
      StrippedCommaIsLone(s);
    }
    if LoneComma(s) {
      LoneCommaStrips(s);
    }
  }
}
