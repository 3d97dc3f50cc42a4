/** The java.lang.String operations the layer repair relies on, on strings as sequences of chars. */
module JavaString {

  /** `s.replaceAll(" ", "")`: every space character removed, the rest kept in order. */
  function RemoveSpaces(s: string): string {
    if s == [] then [] else (if s[0] == ' ' then [] else [s[0]]) + RemoveSpaces(s[1..])
  }

  /** Every comma-separated field of `s`, empty ones included: k commas give k + 1 fields. */
  function SplitAll(s: string): (r: seq<string>)
    ensures |r| >= 1
  {
    if s == [] then [""]
    else
      var rest := SplitAll(s[1..]);
      if s[0] == ',' then [""] + rest else [[s[0]] + rest[0]] + rest[1..]
  }

  /** The fields with one comma between each two of them. */
  function Join(fields: seq<string>): string
    requires |fields| >= 1
  {
    if |fields| == 1 then fields[0] else fields[0] + "," + Join(fields[1..])
  }

  /** Java's splitting rule drops every empty field at the end. */
  function DropTrailingEmpty(f: seq<string>): seq<string> {
    if f == [] || f[|f| - 1] != "" then f else DropTrailingEmpty(f[..|f| - 1])
  }

  /** `s.split(",")`: a string with no comma is its own single field (so "" gives [""]);
      otherwise the comma-separated fields, trailing empty ones removed. */
  function Split(s: string): seq<string> {
    if ',' !in s then [s] else DropTrailingEmpty(SplitAll(s))
  }

  /** The characters `trim()` removes: code points up to U+0020. */
  predicate IsTrimmable(c: char) {
    c <= ' '
  }

  /** The leading-whitespace half of `trim()`. */
  function TrimLeft(s: string): string {
    if s != [] && IsTrimmable(s[0]) then TrimLeft(s[1..]) else s
  }

  /** The trailing-whitespace half of `trim()`. */
  function TrimRight(s: string): string {
    if s != [] && IsTrimmable(s[|s| - 1]) then TrimRight(s[..|s| - 1]) else s
  }

  /** `s.trim()`: leading whitespace removed first, then trailing whitespace. */
  function Trim(s: string): string {
    TrimRight(TrimLeft(s))
  }

  /** `s.repeat(n)`. */
  function Repeat(s: string, n: nat): string {
    if n == 0 then "" else s + Repeat(s, n - 1)
  }

  /** After `replaceAll(" ", "")` no space is left, and a string without spaces is unchanged. */
  lemma {:induction false} RemoveSpacesFacts(s: string)
    ensures ' ' !in RemoveSpaces(s)
    ensures ' ' !in s ==> RemoveSpaces(s) == s
  {
    if s != [] {
      RemoveSpacesFacts(s[1..]);
      assert s == [s[0]] + s[1..];
    }
  }

  /** No field holds a comma; none holds a space if `s` holds none; without a comma the whole
      string is the one field. */
  lemma {:induction false} SplitAllFacts(s: string)
    ensures forall i :: 0 <= i < |SplitAll(s)| ==> ',' !in SplitAll(s)[i]
    ensures ' ' !in s ==> forall i :: 0 <= i < |SplitAll(s)| ==> ' ' !in SplitAll(s)[i]
    ensures ',' !in s ==> SplitAll(s) == [s]
  {
    if s != [] {
      SplitAllFacts(s[1..]);
      assert s == [s[0]] + s[1..];
      var rest := SplitAll(s[1..]);
      if s[0] != ',' {
        var r := [[s[0]] + rest[0]] + rest[1..];
        assert forall i :: 1 <= i < |r| ==> r[i] == rest[i];
      }
    }
  }

  /** Dropping the trailing empty fields keeps a prefix whose last field, if any, is not
      empty, and drops only empty fields; a list already ending in a non-empty field stays. */
  lemma {:induction false} DropTrailingEmptyFacts(f: seq<string>)
    ensures DropTrailingEmpty(f) <= f
    ensures DropTrailingEmpty(f) == [] || DropTrailingEmpty(f)[|DropTrailingEmpty(f)| - 1] != ""
    ensures forall i :: |DropTrailingEmpty(f)| <= i < |f| ==> f[i] == ""
    ensures f != [] && f[|f| - 1] != "" ==> DropTrailingEmpty(f) == f
    decreases |f|
  {
    if f != [] && f[|f| - 1] == "" {
      DropTrailingEmptyFacts(f[..|f| - 1]);
    }
  }

  /** The fields of `split(",")`: no comma in any, no space in any when `s` has none, and if
      there are two or more fields the last is not empty. */
  lemma SplitFacts(s: string)
    ensures forall i :: 0 <= i < |Split(s)| ==> ',' !in Split(s)[i]
    ensures ' ' !in s ==> forall i :: 0 <= i < |Split(s)| ==> ' ' !in Split(s)[i]
    ensures |Split(s)| >= 2 ==> Split(s)[|Split(s)| - 1] != ""
  {
    if ',' in s {
      SplitAllFacts(s);
      DropTrailingEmptyFacts(SplitAll(s));
      var r := Split(s);
      assert forall i :: 0 <= i < |r| ==> r[i] == SplitAll(s)[i];
    }
  }

  /** `trim()`'s leading half removes a prefix of whitespace and stops at a character above
      U+0020. */
  lemma {:induction false} TrimLeftFacts(s: string)
    ensures |TrimLeft(s)| <= |s| && TrimLeft(s) == s[|s| - |TrimLeft(s)|..]
    ensures TrimLeft(s) == [] || !IsTrimmable(TrimLeft(s)[0])
    ensures forall i :: 0 <= i < |s| - |TrimLeft(s)| ==> IsTrimmable(s[i])
  {
    if s != [] && IsTrimmable(s[0]) {
      TrimLeftFacts(s[1..]);
      var r := TrimLeft(s[1..]);
      assert TrimLeft(s) == r;
      assert s[1..][|s| - 1 - |r|..] == s[|s| - |r|..];
      assert forall i :: 1 <= i < |s| - |r| ==> s[i] == s[1..][i - 1];
    }
  }

  /** `trim()`'s trailing half removes a suffix of whitespace and stops at a character above
      U+0020. */
  lemma {:induction false} TrimRightFacts(s: string)
    ensures TrimRight(s) <= s
    ensures TrimRight(s) == [] || !IsTrimmable(TrimRight(s)[|TrimRight(s)| - 1])
    ensures forall i :: |TrimRight(s)| <= i < |s| ==> IsTrimmable(s[i])
  {
    if s != [] && IsTrimmable(s[|s| - 1]) {
      TrimRightFacts(s[..|s| - 1]);
    }
  }

  /** A comma ends the first field: splitting `a,b` gives `a` followed by the fields of `b`. */
  lemma {:induction false} SplitAllAfterField(a: string, b: string)
    requires ',' !in a
    ensures SplitAll(a + "," + b) == [a] + SplitAll(b)
  {
    if a == [] {
      assert (a + "," + b)[1..] == b;
    } else {
      assert (a + "," + b)[1..] == a[1..] + "," + b;
      SplitAllAfterField(a[1..], b);
      assert [a[0]] + a[1..] == a;
    }
  }

  /** Splitting undoes joining, for fields without commas. */
  lemma {:induction false} SplitJoin(fields: seq<string>)
    requires |fields| >= 1
    requires forall i :: 0 <= i < |fields| ==> ',' !in fields[i]
    ensures SplitAll(Join(fields)) == fields
  {
    if |fields| > 1 {
      SplitJoin(fields[1..]);
      SplitAllAfterField(fields[0], Join(fields[1..]));
      assert [fields[0]] + fields[1..] == fields;
    } else {
      SplitAllFacts(fields[0]);
    }
  }

  /** Joining undoes splitting. */
  lemma {:induction false} JoinSplit(s: string)
    ensures Join(SplitAll(s)) == s
  {
    if s != [] {
      JoinSplit(s[1..]);
      var rest := SplitAll(s[1..]);
      if s[0] == ',' {
        assert Join([""] + rest) == "" + "," + Join(rest);
        assert s == [s[0]] + s[1..];
      } else if |rest| == 1 {
        assert s == [s[0]] + s[1..];
      } else {
        var r := [[s[0]] + rest[0]] + rest[1..];
        assert r[1..] == rest[1..];
        assert Join(rest) == rest[0] + "," + Join(rest[1..]);
        assert s == [s[0]] + s[1..];
      }
    }
  }

  /** `trim()` stops at the first character above U+0020, whatever follows it. */
  lemma {:induction false} TrimLeftStops(a: string, b: string)
    requires b != [] && !IsTrimmable(b[0])
    ensures TrimLeft(a + b) == TrimLeft(a) + b
  {
    if a == [] {
      assert a + b == b;
    } else if IsTrimmable(a[0]) {
      assert (a + b)[1..] == a[1..] + b;
      TrimLeftStops(a[1..], b);
    } else {
      assert (a + b)[0] == a[0];
    }
  }

  /** Joining a longer list adds a comma and the new field at the end. */
  lemma {:induction false} JoinAppend(fields: seq<string>, f: string)
    requires |fields| >= 1
    ensures Join(fields + [f]) == Join(fields) + "," + f
  {
    if |fields| > 1 {
      assert (fields + [f])[1..] == fields[1..] + [f];
      JoinAppend(fields[1..], f);
    }
  }

  /** A character other than the comma occurs in a join only if it occurs in a field. */
  lemma {:induction false} JoinExcludes(fields: seq<string>, c: char)
    requires |fields| >= 1 && c != ','
    requires forall i :: 0 <= i < |fields| ==> c !in fields[i]
    ensures c !in Join(fields)
  {
    if |fields| > 1 {
      JoinExcludes(fields[1..], c);
    }
  }

  /** `s.repeat(n)` as n appends of `s`. */
  lemma {:induction false} RepeatAppend(s: string, n: nat)
    requires n >= 1
    ensures Repeat(s, n) == Repeat(s, n - 1) + s
  {
    if n > 1 {
      RepeatAppend(s, n - 1);
    }
  }

  /** `trim()` only removes characters: one absent before is absent after. */
  lemma TrimLeftExcludes(s: string, c: char)
    requires c !in s
    ensures c !in TrimLeft(s)
  {
    TrimLeftFacts(s);
    var r := TrimLeft(s);
    assert forall k :: 0 <= k < |r| ==> r[k] == s[|s| - |r| + k];
  }

  /** Trimming twice trims no more than once. */
  lemma TrimLeftIdempotent(s: string)
    ensures TrimLeft(TrimLeft(s)) == TrimLeft(s)
  {
    TrimLeftFacts(s);
  }
}
