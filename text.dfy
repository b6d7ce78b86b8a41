/** The two string tests every front end applies to what the user types. */
module Text {

  /** White space and line terminators as JavaScript's String.prototype.trim removes them. */
  predicate IsJsSpace(c: char)
  {
    || c == ' ' || c == '\t' || c == '\n' || c == '\r' || c == '\U{B}' || c == '\U{C}'
    || c == '\U{A0}' || c == '\U{1680}' || ('\U{2000}' <= c <= '\U{200A}')
    || c == '\U{2028}' || c == '\U{2029}' || c == '\U{202F}' || c == '\U{205F}'
    || c == '\U{3000}' || c == '\U{FEFF}'
  }

  function TrimStart(s: string): (r: string)
    ensures |r| <= |s|
  {
    if s != [] && IsJsSpace(s[0]) then TrimStart(s[1..]) else s
  }

  function TrimEnd(s: string): (r: string)
    ensures |r| <= |s|
  {
    if s != [] && IsJsSpace(s[|s| - 1]) then TrimEnd(s[..|s| - 1]) else s
  }

  /** `s.trim()`: the string without its leading and trailing white space. */
  function Trim(s: string): string
  {
    TrimEnd(TrimStart(s))
  }

  /** `s.trim() === ""`, the emptiness test both JavaScript front ends apply to a name. */
  predicate IsBlank(s: string)
  {
    Trim(s) == ""
  }

  /** `s.toLowerCase() === 's'` (JavaScript) and `s.lower() == 's'` (Python): only "s" and "S" lower-case to "s". */
  predicate IsYes(s: string)
  {
    s == "s" || s == "S"
  }

  lemma {:induction false} TrimStartSlice(s: string) returns (a: nat)
    ensures a <= |s| && TrimStart(s) == s[a..]
    ensures forall i :: 0 <= i < a ==> IsJsSpace(s[i])
    ensures a < |s| ==> !IsJsSpace(s[a])
    decreases |s|
  {
    if s != [] && IsJsSpace(s[0]) {
      var a' := TrimStartSlice(s[1..]);
      a := a' + 1;
      assert s[1..][a'..] == s[a..];
      forall i | 0 <= i < a ensures IsJsSpace(s[i]) {
        if i > 0 { assert s[i] == s[1..][i - 1]; }
      }
    } else {
      a := 0;
    }
  }

  lemma {:induction false} TrimEndSlice(s: string) returns (b: nat)
    ensures b <= |s| && TrimEnd(s) == s[..b]
    ensures forall i :: b <= i < |s| ==> IsJsSpace(s[i])
    ensures b > 0 ==> !IsJsSpace(s[b - 1])
    decreases |s|
  {
    if s != [] && IsJsSpace(s[|s| - 1]) {
      b := TrimEndSlice(s[..|s| - 1]);
      assert s[..|s| - 1][..b] == s[..b];
    } else {
      b := |s|;
    }
  }

  /** Trim keeps exactly the run between the first and the last non-blank character. */
  lemma TrimSlice(s: string) returns (a: nat, b: nat)
    ensures a <= b <= |s| && Trim(s) == s[a..b]
    ensures forall i :: 0 <= i < a ==> IsJsSpace(s[i])
    ensures forall i :: b <= i < |s| ==> IsJsSpace(s[i])
    ensures a < b ==> !IsJsSpace(s[a]) && !IsJsSpace(s[b - 1])
  {
    a := TrimStartSlice(s);
    var t := s[a..];
    var c := TrimEndSlice(t);
    b := a + c;
    assert t[..c] == s[a..b];
    forall i | b <= i < |s| ensures IsJsSpace(s[i]) {
      assert s[i] == t[i - a];
    }
    if a < b {
      assert s[b - 1] == t[c - 1];
    }
  }

  /** A trimmed string is empty exactly when every character of the input is white space. */
  lemma BlankIffAllSpace(s: string)
    ensures IsBlank(s) <==> forall i :: 0 <= i < |s| ==> IsJsSpace(s[i])
  {
    var a, b := TrimSlice(s);
    if !IsBlank(s) {
      assert !IsJsSpace(s[a]);
    }
  }

  /** Trimming twice changes nothing more than trimming once. */
  lemma TrimIdempotent(s: string)
    ensures Trim(Trim(s)) == Trim(s)
  {
    var a, b := TrimSlice(s);
    var t := Trim(s);
    var a', b' := TrimSlice(t);
    if a < b {
      assert !IsJsSpace(t[0]) && !IsJsSpace(t[|t| - 1]);
      assert a' == 0;
      assert b' == |t|;
    } else {
      assert t == [];
    }
  }
}
