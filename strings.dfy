/**
 * The JavaScript string built-ins the scanner page relies on, over `seq<char>`
 * read as Unicode code points: `includes`, `toLowerCase`, `Array.join('')` and `trim`.
 */
module JsStrings {

  /** `sub` occurs in `s` starting at index `i`. */
  predicate OccursAt(s: string, sub: string, i: int)
  {
    0 <= i && i + |sub| <= |s| && s[i..i + |sub|] == sub
  }

  /** `s.includes(sub)`: some window of `s` equals `sub`. */
  function Contains(s: string, sub: string): (b: bool)
    ensures b <==> exists i :: OccursAt(s, sub, i)
    decreases |s|
  {
    if |sub| > |s| then
      false
    else if s[..|sub|] == sub then
      assert OccursAt(s, sub, 0);
      true
    else
      var r := Contains(s[1..], sub);
      ShiftOccurrence(s, sub);
      r
  }

  /** An occurrence in `s[1..]` is an occurrence in `s` one place further on, and back. */
  lemma ShiftOccurrence(s: string, sub: string)
    requires |s| > 0
    ensures forall j :: 0 <= j ==> (OccursAt(s[1..], sub, j) <==> OccursAt(s, sub, j + 1))
    ensures (exists i :: OccursAt(s, sub, i)) <==> OccursAt(s, sub, 0) || exists j :: OccursAt(s[1..], sub, j)
  {
    forall j | 0 <= j
      ensures OccursAt(s[1..], sub, j) <==> OccursAt(s, sub, j + 1)
    {
      if 0 <= j && j + |sub| <= |s| - 1 {
        assert s[1..][j..j + |sub|] == s[j + 1..j + 1 + |sub|];
      }
    }
    if i :| OccursAt(s, sub, i) && i != 0 {
      assert OccursAt(s[1..], sub, i - 1);
    }
  }

  /** ASCII case mapping of one character (`A`..`Z` to `a`..`z`, all else unchanged). */
  function LowerChar(c: char): char
  {
    if 'A' <= c <= 'Z' then (c as int - 'A' as int + 'a' as int) as char else c
  }

  /** `s.toLowerCase()`, restricted to the ASCII letters. */
  function ToLower(s: string): (r: string)
    ensures |r| == |s|
    ensures forall i :: 0 <= i < |s| ==> r[i] == LowerChar(s[i])
  {
    seq(|s|, i requires 0 <= i < |s| => LowerChar(s[i]))
  }

  /** Lower-casing distributes over concatenation. */
  lemma ToLowerConcat(a: string, b: string)
    ensures ToLower(a + b) == ToLower(a) + ToLower(b)
  {
    assert forall i :: 0 <= i < |a + b| ==> ToLower(a + b)[i] == (ToLower(a) + ToLower(b))[i] by {
      forall i | 0 <= i < |a + b|
        ensures ToLower(a + b)[i] == (ToLower(a) + ToLower(b))[i]
      {
        if i < |a| {
          assert (a + b)[i] == a[i];
        } else {
          assert (a + b)[i] == b[i - |a|];
        }
      }
    }
  }

  /** Lower-casing twice is lower-casing once. */
  lemma ToLowerIdempotent(s: string)
    ensures ToLower(ToLower(s)) == ToLower(s)
  {
  }

  /** `parts.join('')`: the parts one after another, nothing in between. */
  function Join(parts: seq<string>): string
  {
    if parts == [] then "" else parts[0] + Join(parts[1..])
  }

  /** Where part `k` begins inside `Join(parts)`: the total length of the parts before it. */
  function Offset(parts: seq<string>, k: nat): nat
    requires k <= |parts|
  {
    if k == 0 then 0 else |parts[0]| + Offset(parts[1..], k - 1)
  }

  /** Part `k` of the list is the slice of the joined string that starts at `Offset(parts, k)`. */
  lemma {:induction false} JoinSlice(parts: seq<string>, k: nat)
    requires k < |parts|
    ensures Offset(parts, k) + |parts[k]| <= |Join(parts)|
    ensures Join(parts)[Offset(parts, k)..Offset(parts, k) + |parts[k]|] == parts[k]
  {
    var head, rest := parts[0], Join(parts[1..]);
    assert Join(parts) == head + rest;
    if k == 0 {
      assert (head + rest)[..|head|] == head;
    } else {
      JoinSlice(parts[1..], k - 1);
      var o := Offset(parts[1..], k - 1);
      assert parts[1..][k - 1] == parts[k];
      assert (head + rest)[|head| + o..|head| + o + |parts[k]|] == rest[o..o + |parts[k]|];
    }
  }

  /** When `part` sits at `o` in `joined`, a word in lower-cased `part` is in lower-cased `joined`, shifted by `o`. */
  lemma LowerWindow(joined: string, part: string, o: nat, word: string, i: nat)
    requires o + |part| <= |joined| && joined[o..o + |part|] == part
    requires OccursAt(ToLower(part), word, i)
    ensures OccursAt(ToLower(joined), word, o + i)
  {
    var n := |word|;
    var lj, lp := ToLower(joined), ToLower(part);
    var left, right := lj[o + i..o + i + n], lp[i..i + n];
    forall j | 0 <= j < n
      ensures left[j] == right[j]
    {
      assert joined[o..o + |part|][i + j] == joined[o + i + j];
      assert left[j] == lj[o + i + j] == LowerChar(joined[o + i + j]);
      assert right[j] == lp[i + j] == LowerChar(part[i + j]);
    }
    assert left == right;
  }

  /** A window of part `k` reappears, shifted by `Offset(parts, k)`, in the joined string. */
  lemma OccurrenceInJoin(parts: seq<string>, k: nat, word: string, i: nat)
    requires k < |parts|
    requires OccursAt(ToLower(parts[k]), word, i)
    ensures OccursAt(ToLower(Join(parts)), word, Offset(parts, k) + i)
  {
    JoinSlice(parts, k);
    LowerWindow(Join(parts), parts[k], Offset(parts, k), word, i);
  }

  /** Lower-casing the joined string still shows every word a lower-cased part shows. */
  lemma PartOccurrenceSurvivesJoin(parts: seq<string>, k: nat, word: string)
    requires k < |parts|
    requires Contains(ToLower(parts[k]), word)
    ensures Contains(ToLower(Join(parts)), word)
  {
    var i :| OccursAt(ToLower(parts[k]), word, i);
    OccurrenceInJoin(parts, k, word, i);
  }

  /**
   * The characters `String.prototype.trim` removes: ECMAScript's WhiteSpace
   * (tab, vertical tab, form feed, space, no-break space, byte order mark and
   * the Unicode space separators) and LineTerminator code points.
   */
  predicate IsJsWhitespace(c: char)
  {
    || c == '\t' || c == '\U{000B}' || c == '\U{000C}' || c == ' ' || c == '\U{00A0}' || c == '\U{FEFF}'
    || c == '\U{1680}' || ('\U{2000}' <= c <= '\U{200A}') || c == '\U{202F}' || c == '\U{205F}' || c == '\U{3000}'
    || c == '\n' || c == '\r' || c == '\U{2028}' || c == '\U{2029}'
  }

  /** `s` with its leading whitespace removed. */
  function TrimStart(s: string): (r: string)
    ensures |r| <= |s| && r == s[|s| - |r|..]
    ensures r == [] || !IsJsWhitespace(r[0])
    ensures forall i :: 0 <= i < |s| - |r| ==> IsJsWhitespace(s[i])
  {
    if s != [] && IsJsWhitespace(s[0]) then TrimStart(s[1..]) else s
  }

  /** `s` with its trailing whitespace removed. */
  function TrimEnd(s: string): (r: string)
    ensures |r| <= |s| && r == s[..|r|]
    ensures r == [] || !IsJsWhitespace(r[|r| - 1])
    ensures forall i :: |r| <= i < |s| ==> IsJsWhitespace(s[i])
  {
    if s != [] && IsJsWhitespace(s[|s| - 1]) then TrimEnd(s[..|s| - 1]) else s
  }

  /** `s.trim()`. */
  function Trim(s: string): string
  {
    TrimEnd(TrimStart(s))
  }

  /** A string trims to `""` exactly when every character of it is whitespace. */
  lemma TrimEmptyIffBlank(s: string)
    ensures Trim(s) == "" <==> forall i :: 0 <= i < |s| ==> IsJsWhitespace(s[i])
  {
    var t := TrimStart(s);
    if forall i :: 0 <= i < |s| ==> IsJsWhitespace(s[i]) {
      assert t == [];
    }
    if Trim(s) == "" {
      assert t == [];
    }
  }
}
