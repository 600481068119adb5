/** Pure string helpers the form handler relies on: JavaScript's
    `String.prototype.trim` and the `x || fallback` idiom on an optional string. */
module Text {

  datatype Option<+T> = None | Some(value: T)

  /** The code points `trim` strips: WhiteSpace and LineTerminator of the
      ECMAScript Language Specification (2024 edition, sections 12.2 and 12.3),
      with the Zs category written out. */
  predicate IsSpace(c: char) {
    || c == '\t' || c == '\U{000B}' || c == '\U{000C}' || c == ' '
    || c == '\U{00A0}' || c == '\U{FEFF}' || c == '\U{1680}'
    || ('\U{2000}' <= c <= '\U{200A}')
    || c == '\U{202F}' || c == '\U{205F}' || c == '\U{3000}'
    || c == '\n' || c == '\r' || c == '\U{2028}' || c == '\U{2029}'
  }

  predicate AllSpace(s: string) {
    forall k :: 0 <= k < |s| ==> IsSpace(s[k])
  }

  /** Reference definition of trimming: `s[i..j]` is what is left of `s` once
      the whitespace on both ends is gone. */
  ghost predicate Strips(s: string, i: nat, j: nat) {
    && i <= j <= |s|
    && (forall k :: 0 <= k < i ==> IsSpace(s[k]))
    && (forall k :: j <= k < |s| ==> IsSpace(s[k]))
    && (i < j ==> !IsSpace(s[i]) && !IsSpace(s[j - 1]))
  }

  /** Drops the leading whitespace. */
  function TrimStart(s: string): (r: string)
    ensures |r| <= |s|
  {
    if s != [] && IsSpace(s[0]) then TrimStart(s[1..]) else s
  }

  /** Drops the trailing whitespace. */
  function TrimEnd(s: string): (r: string)
    ensures |r| <= |s|
  {
    if s != [] && IsSpace(s[|s| - 1]) then TrimEnd(s[..|s| - 1]) else s
  }

  /** `s.trim()`. */
  function Trim(s: string): string {
    TrimEnd(TrimStart(s))
  }

  /** `TrimStart` keeps a suffix, drops only whitespace, and stops at the
      first character that is not whitespace. */
  lemma {:induction false} TrimStartSpec(s: string)
    ensures var r := TrimStart(s);
      && r == s[|s| - |r|..]
      && (forall k :: 0 <= k < |s| - |r| ==> IsSpace(s[k]))
      && (r == [] || !IsSpace(r[0]))
  {
    if s != [] && IsSpace(s[0]) {
      TrimStartSpec(s[1..]);
    }
  }

  /** `TrimEnd` keeps a prefix, drops only whitespace, and stops at the
      last character that is not whitespace. */
  lemma {:induction false} TrimEndSpec(s: string)
    ensures var r := TrimEnd(s);
      && r == s[..|r|]
      && (forall k :: |r| <= k < |s| ==> IsSpace(s[k]))
      && (r == [] || !IsSpace(r[|r| - 1]))
  {
    if s != [] && IsSpace(s[|s| - 1]) {
      TrimEndSpec(s[..|s| - 1]);
    }
  }

  /** `Trim` is sound for the reference definition: it keeps a slice of `s`
      whose two sides are whitespace and whose two ends are not. */
  lemma TrimStrips(s: string) returns (i: nat, j: nat)
    ensures Strips(s, i, j) && Trim(s) == s[i..j]
  {
    var t := TrimStart(s);
    var r := TrimEnd(t);
    TrimStartSpec(s);
    TrimEndSpec(t);
    i := |s| - |t|;
    j := i + |r|;
    assert t == s[i..];
    assert r == s[i..j];
    assert s[j..] == t[|r|..];
    if i < j {
      assert r[0] == t[0] == s[i];
    }
  }

  /** The reference definition pins down a single slice. */
  lemma StripsUnique(s: string, i: nat, j: nat, i': nat, j': nat)
    requires Strips(s, i, j) && Strips(s, i', j')
    ensures s[i..j] == s[i'..j']
  {
  }

  /** Completeness: whatever slice the reference definition allows is
      exactly what `Trim` returns. */
  lemma TrimUnique(s: string, i: nat, j: nat)
    requires Strips(s, i, j)
    ensures Trim(s) == s[i..j]
  {
    var i', j' := TrimStrips(s);
    StripsUnique(s, i, j, i', j');
  }

  /** An input is empty after trimming exactly when it is whitespace only. */
  lemma TrimEmptyIff(s: string)
    ensures Trim(s) == [] <==> AllSpace(s)
  {
    if AllSpace(s) {
      TrimUnique(s, 0, 0);
    } else {
      var i, j := TrimStrips(s);
    }
  }

  /** Trimming twice is trimming once. */
  lemma TrimIdempotent(s: string)
    ensures Trim(Trim(s)) == Trim(s)
  {
    var i, j := TrimStrips(s);
    var r := Trim(s);
    assert r[0..|r|] == r;
    if r != [] {
      assert r[0] == s[i] && r[|r| - 1] == s[j - 1];
    }
    TrimUnique(r, 0, |r|);
  }

  /** `x || fallback` for a value that is a string or absent: JavaScript
      treats both the absent value and the empty string as falsy. */
  function Or(x: Option<string>, fallback: string): (r: string)
    ensures x.Some? && x.value != "" ==> r == x.value
    ensures x.None? || x.value == "" ==> r == fallback
    ensures fallback != "" ==> r != ""
  {
    match x
    case Some(v) => if v != "" then v else fallback
    case None => fallback
  }
}
