/**
 * The few java.lang.String operations the connector's logic depends on, with
 * the JDK's own edge cases: `split(",")` drops trailing empty strings and
 * returns the whole input when there is no comma, `trim()` strips every
 * character up to U+0020 from both ends, and `toLowerCase()` /
 * `equalsIgnoreCase` are taken on the ASCII letters.
 */
module JavaStrings {

  /** The characters `String.trim()` removes: every code point <= U+0020. */
  predicate IsTrimmed(c: char) {
    c <= ' '
  }

  /** `String.trim()`: the part between the first and the last character above U+0020. */
  function Trim(s: string): (r: string)
    ensures r != [] ==> !IsTrimmed(r[0]) && !IsTrimmed(r[|r| - 1])
    ensures (forall k :: 0 <= k < |s| ==> IsTrimmed(s[k])) <==> r == []
  {
    var i := TrimStart(s, 0);
    s[i..TrimEnd(s, i, |s|)]
  }

  /** The first index at or after `i` whose character `trim()` keeps, or |s|. */
  function TrimStart(s: string, i: nat): (j: nat)
    requires i <= |s|
    ensures i <= j <= |s|
    ensures forall k :: i <= k < j ==> IsTrimmed(s[k])
    ensures j < |s| ==> !IsTrimmed(s[j])
    decreases |s| - i
  {
    if i < |s| && IsTrimmed(s[i]) then TrimStart(s, i + 1) else i
  }

  /** The end of the kept part: `j` moved left past the removable characters, not below `i`. */
  function TrimEnd(s: string, i: nat, j: nat): (e: nat)
    requires i <= j <= |s|
    ensures i <= e <= j
    ensures forall k :: e <= k < j ==> IsTrimmed(s[k])
    ensures e > i ==> !IsTrimmed(s[e - 1])
  {
    if j > i && IsTrimmed(s[j - 1]) then TrimEnd(s, i, j - 1) else j
  }

  /** Trimming a trimmed string changes nothing. */
  lemma TrimIdempotent(s: string)
    ensures Trim(Trim(s)) == Trim(s)
  {
    var t := Trim(s);
    if t != [] {
      assert TrimStart(t, 0) == 0;
      assert TrimEnd(t, 0, |t|) == |t|;
    }
  }

  /** `Character.toLowerCase` on ASCII letters; every other character is kept. */
  function LowerChar(c: char): (r: char)
    ensures 'A' <= c <= 'Z' ==> 'a' <= r <= 'z' && r as int == c as int + 32
    ensures !('A' <= c <= 'Z') ==> r == c
  {
    if 'A' <= c <= 'Z' then (c - 'A' + 'a') as char else c
  }

  /** `String.toLowerCase()`, ASCII letters only. */
  function ToLower(s: string): (r: string)
    ensures |r| == |s|
    ensures forall k :: 0 <= k < |s| ==> r[k] == LowerChar(s[k])
  {
    seq(|s|, k requires 0 <= k < |s| => LowerChar(s[k]))
  }

  /** Splits on every comma, keeping every piece (empty ones included). */
  function SplitAll(s: string): (parts: seq<string>)
    ensures |parts| >= 1
    ensures forall p :: p in parts ==> ',' !in p
    ensures ',' !in s ==> parts == [s]
  {
    assert "" + s == s;
    SplitFrom(s, "")
  }

  /** Splits `s`, with `acc` the piece read so far (no comma in it). */
  function SplitFrom(s: string, acc: string): (parts: seq<string>)
    requires ',' !in acc
    ensures |parts| >= 1
    ensures forall p :: p in parts ==> ',' !in p
    ensures ',' !in s ==> parts == [acc + s]
    decreases |s|
  {
    if s == [] then assert acc + s == acc; [acc]
    else if s[0] == ',' then [acc] + SplitFrom(s[1..], "")
    else
      assert acc + [s[0]] + s[1..] == acc + s;
      SplitFrom(s[1..], acc + [s[0]])
  }

  /** A comma-free piece followed by a comma splits off as one element, the rest split independently. */
  lemma {:induction false} SplitFromPiece(a: string, rest: string, acc: string)
    requires ',' !in acc && ',' !in a
    ensures SplitFrom(a + "," + rest, acc) == [acc + a] + SplitFrom(rest, "")
    decreases |a|
  {
    var s := a + "," + rest;
    if a == [] {
      assert s == [','] + rest;
      assert acc + a == acc;
    } else {
      assert s[0] == a[0] && s[1..] == a[1..] + "," + rest;
      SplitFromPiece(a[1..], rest, acc + [a[0]]);
      assert acc + [a[0]] + a[1..] == acc + a;
    }
  }

  /** The pieces joined with commas. */
  function Join(parts: seq<string>): string
    requires |parts| >= 1
  {
    if |parts| == 1 then parts[0] else parts[0] + "," + Join(parts[1..])
  }

  /** Splitting on commas loses nothing: the pieces join back to the input. */
  lemma {:induction false} SplitAllJoin(s: string)
    ensures Join(SplitAll(s)) == s
  {
    SplitFromJoin(s, "");
  }

  lemma {:induction false} SplitFromJoin(s: string, acc: string)
    requires ',' !in acc
    ensures Join(SplitFrom(s, acc)) == acc + s
    decreases |s|
  {
    if s == [] {
    } else if s[0] == ',' {
      var rest := SplitFrom(s[1..], "");
      assert SplitFrom(s, acc) == [acc] + rest;
      assert ([acc] + rest)[1..] == rest;
      SplitFromJoin(s[1..], "");
      assert Join(rest) == s[1..];
      assert acc + "," + s[1..] == acc + s;
    } else {
      assert SplitFrom(s, acc) == SplitFrom(s[1..], acc + [s[0]]);
      SplitFromJoin(s[1..], acc + [s[0]]);
      assert acc + [s[0]] + s[1..] == acc + s;
    }
  }

  /** Comma-free pieces joined with commas split back into exactly those pieces. */
  lemma {:induction false} SplitAllOfJoin(parts: seq<string>)
    requires |parts| >= 1
    requires forall k :: 0 <= k < |parts| ==> ',' !in parts[k]
    ensures SplitAll(Join(parts)) == parts
    decreases |parts|
  {
    var e: string := "";
    if |parts| == 1 {
      assert SplitFrom(parts[0], e) == [e + parts[0]];
      assert e + parts[0] == parts[0];
    } else {
      SplitAllOfJoin(parts[1..]);
      SplitFromPiece(parts[0], Join(parts[1..]), e);
      assert e + parts[0] == parts[0];
      assert parts == [parts[0]] + parts[1..];
    }
  }

  /** The sequence without its trailing empty strings. */
  function DropTrailingEmpty(parts: seq<string>): (r: seq<string>)
    ensures |r| <= |parts| && r == parts[..|r|]
    ensures r != [] ==> r[|r| - 1] != ""
    ensures forall k :: |r| <= k < |parts| ==> parts[k] == ""
  {
    if parts == [] then []
    else if parts[|parts| - 1] == "" then DropTrailingEmpty(parts[..|parts| - 1])
    else parts
  }

  /**
   * `s.split(",")`: with no comma the input itself is the only element;
   * otherwise the comma-separated pieces without the trailing empty ones
   * (so "," gives no element at all and "a,,b," gives "a", "", "b").
   */
  function Split(s: string): (parts: seq<string>)
    ensures forall p :: p in parts ==> ',' !in p
    ensures ',' !in s ==> parts == [s]
    ensures ',' in s ==> parts == DropTrailingEmpty(SplitAll(s))
  {
    if ',' !in s then [s] else DropTrailingEmpty(SplitAll(s))
  }

  /**
   * `split` inverts joining with commas when the pieces hold no comma and
   * the last of several is not empty (a trailing empty piece is dropped).
   */
  lemma SplitOfJoin(parts: seq<string>)
    requires |parts| >= 1
    requires forall k :: 0 <= k < |parts| ==> ',' !in parts[k]
    requires |parts| > 1 ==> parts[|parts| - 1] != ""
    ensures Split(Join(parts)) == parts
  {
    SplitAllOfJoin(parts);
    if |parts| > 1 {
      var s := Join(parts);
      assert s == parts[0] + "," + Join(parts[1..]);
      assert s[|parts[0]|] == ',';
    }
  }

  /** A comma-only string splits into nothing at all. */
  lemma SplitOfCommasIsEmpty()
    ensures Split(",") == []
    ensures Split(",,") == []
  {
    assert SplitAll(",") == ["", ""];
    assert SplitAll(",,") == ["", "", ""];
  }
}
