/** The two functions of Go's strings package the column scanner of main.go
    relies on: strings.TrimSpace and strings.Split with the separator ",".
    A string is its sequence of code points. */
module GoStrings {

  /** unicode.IsSpace: the Latin-1 spaces '\t', '\n', '\v', '\f', '\r', ' ',
      U+0085 and U+00A0, and the other code points with the White_Space property. */
  predicate IsSpace(c: char)
    ensures c as int < 0x100 ==>
      (IsSpace(c) <==> c in {'\t', '\n', '\U{B}', '\U{C}', '\r', ' ', '\U{85}', '\U{A0}'})
  {
    var n := c as int;
    || (9 <= n <= 13) || n == 32 || n == 0x85 || n == 0xA0
    || n == 0x1680 || (0x2000 <= n <= 0x200A) || n == 0x2028 || n == 0x2029
    || n == 0x202F || n == 0x205F || n == 0x3000
  }

  predicate AllSpace(s: string) {
    forall i :: 0 <= i < |s| ==> IsSpace(s[i])
  }

  /** strings.TrimSpace: the string without its leading and trailing white
      space.  It is empty exactly for an all-space string, otherwise it starts
      and ends with a non-space, and a string that already does is kept. */
  function TrimSpace(s: string): (r: string)
    ensures r == [] <==> AllSpace(s)
    ensures r != [] ==> !IsSpace(r[0]) && !IsSpace(r[|r| - 1])
    ensures s == [] || (!IsSpace(s[0]) && !IsSpace(s[|s| - 1])) ==> r == s
    ensures |r| <= |s|
  {
    if s != [] && IsSpace(s[0]) then TrimSpace(s[1..])
    else if s != [] && IsSpace(s[|s| - 1]) then TrimSpace(s[..|s| - 1])
    else s
  }

  /** TrimSpace removes white space only: its result is the slice of s from
      `start`, with nothing but white space before it and after it. */
  lemma {:induction false} TrimSpaceRemovesOnlySpace(s: string) returns (start: nat)
    ensures start + |TrimSpace(s)| <= |s|
    ensures s[start..start + |TrimSpace(s)|] == TrimSpace(s)
    ensures forall i :: 0 <= i < start ==> IsSpace(s[i])
    ensures forall i :: start + |TrimSpace(s)| <= i < |s| ==> IsSpace(s[i])
  {
    if s != [] && IsSpace(s[0]) {
      var a := TrimSpaceRemovesOnlySpace(s[1..]);
      start := a + 1;
      SpacesAfterLeading(s, s[1..], a, |TrimSpace(s[1..])|);
    } else if s != [] && IsSpace(s[|s| - 1]) {
      start := TrimSpaceRemovesOnlySpace(s[..|s| - 1]);
      SpacesBeforeTrailing(s, s[..|s| - 1], start, |TrimSpace(s[..|s| - 1])|);
    } else {
      start := 0;
    }
  }

  /** The slice and the white space around it, moved past a leading space. */
  lemma SpacesAfterLeading(s: string, t: string, a: nat, n: nat)
    requires s != [] && IsSpace(s[0]) && t == s[1..] && a + n <= |t|
    requires forall i :: 0 <= i < a ==> IsSpace(t[i])
    requires forall i :: a + n <= i < |t| ==> IsSpace(t[i])
    ensures s[a + 1..a + 1 + n] == t[a..a + n]
    ensures forall i :: 0 <= i < a + 1 ==> IsSpace(s[i])
    ensures forall i :: a + 1 + n <= i < |s| ==> IsSpace(s[i])
  {
    var u, w := s[a + 1..a + 1 + n], t[a..a + n];
    forall k | 0 <= k < n ensures u[k] == w[k] {
      assert s[a + 1 + k] == t[a + k];
    }
    forall i | 0 < i < a + 1 ensures IsSpace(s[i]) {
      assert s[i] == t[i - 1];
    }
    forall i | a + 1 + n <= i < |s| ensures IsSpace(s[i]) {
      assert s[i] == t[i - 1];
    }
  }

  /** The slice and the white space around it, kept when a trailing space is
      added back. */
  lemma SpacesBeforeTrailing(s: string, t: string, a: nat, n: nat)
    requires s != [] && IsSpace(s[|s| - 1]) && t == s[..|s| - 1] && a + n <= |t|
    requires forall i :: 0 <= i < a ==> IsSpace(t[i])
    requires forall i :: a + n <= i < |t| ==> IsSpace(t[i])
    ensures s[a..a + n] == t[a..a + n]
    ensures forall i :: 0 <= i < a ==> IsSpace(s[i])
    ensures forall i :: a + n <= i < |s| ==> IsSpace(s[i])
  {
    forall i | 0 <= i < a ensures IsSpace(s[i]) {
      assert s[i] == t[i];
    }
    forall i | a + n <= i < |s| - 1 ensures IsSpace(s[i]) {
      assert s[i] == t[i];
    }
  }

  /** Trimming twice trims no more than trimming once. */
  lemma TrimSpaceIdempotent(s: string)
    ensures TrimSpace(TrimSpace(s)) == TrimSpace(s)
  {
  }

  /** The number of commas in s. */
  function Commas(s: string): nat {
    if s == [] then 0 else (if s[0] == ',' then 1 else 0) + Commas(s[1..])
  }

  /** strings.Split(s, ","): the pieces between commas, one more than there are
      commas, none of them holding a comma. */
  function Split(s: string): (fields: seq<string>)
    ensures |fields| == Commas(s) + 1
    ensures forall i :: 0 <= i < |fields| ==> ',' !in fields[i]
  {
    if s == [] then [""]
    else
      var rest := Split(s[1..]);
      if s[0] == ',' then [""] + rest else [[s[0]] + rest[0]] + rest[1..]
  }

  /** strings.Join(fields, ","), the inverse Split is checked against. */
  function Join(fields: seq<string>): string {
    if fields == [] then ""
    else if |fields| == 1 then fields[0]
    else fields[0] + "," + Join(fields[1..])
  }

  /** Joining the pieces Split returns gives back the string split. */
  lemma {:induction false} JoinSplit(s: string)
    ensures Join(Split(s)) == s
  {
    if s != [] {
      var rest := Split(s[1..]);
      JoinSplit(s[1..]);
      if s[0] == ',' {
        assert Split(s) == [""] + rest;
        assert Join(Split(s)) == "" + "," + Join(rest);
      } else {
        var head := [s[0]] + rest[0];
        assert Split(s) == [head] + rest[1..];
        if |rest| == 1 {
          assert Join(rest) == rest[0];
        } else {
          assert Join(rest) == rest[0] + "," + Join(rest[1..]);
          assert Join(Split(s)) == head + "," + Join(rest[1..]);
        }
      }
    }
  }

  /** Splitting a join of comma-free pieces gives back the pieces. */
  lemma {:induction false} SplitJoin(fields: seq<string>)
    requires fields != []
    requires forall i :: 0 <= i < |fields| ==> ',' !in fields[i]
    ensures Split(Join(fields)) == fields
  {
    if |fields| == 1 {
      SplitCommaFree(fields[0]);
    } else {
      SplitJoin(fields[1..]);
      SplitPrefix(fields[0], Join(fields[1..]));
      assert Join(fields) == fields[0] + ("," + Join(fields[1..]));
      assert [fields[0]] + fields[1..] == fields;
    }
  }

  /** A comma-free string is one piece. */
  lemma {:induction false} SplitCommaFree(s: string)
    requires ',' !in s
    ensures Split(s) == [s]
  {
    if s != [] {
      SplitCommaFree(s[1..]);
      assert [s[0]] + s[1..] == s;
    }
  }

  /** A comma-free prefix followed by a comma is the first piece. */
  lemma {:induction false} SplitPrefix(head: string, tail: string)
    requires ',' !in head
    ensures Split(head + ("," + tail)) == [head] + Split(tail)
  {
    var s := head + ("," + tail);
    if head == [] {
      assert s == "," + tail;
      assert s[1..] == tail;
    } else {
      assert s[1..] == head[1..] + ("," + tail);
      SplitPrefix(head[1..], tail);
      assert [head[0]] + head[1..] == head;
    }
  }
}
