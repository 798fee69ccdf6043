/**
 Octets and the byte-string operations the wire layer is written in
 (crates/h11r/src/wire.rs, crates/h11r/src/method.rs): byte classes, ASCII case
 folding, optional whitespace, and comma lists.
 */
module Bytes {
  /** An octet, written as the character with that code. */
  type byte = c: char | c as int < 256 witness 'a'
  type bytes = seq<byte>

  const CRLF: bytes := "\r\n"

  // ------------------------------------------------------------------
  // Byte classes
  // ------------------------------------------------------------------

  predicate IsOws(b: byte) {
    b == ' ' || b == '\t'
  }

  predicate IsDigit(b: byte) {
    '0' <= b <= '9'
  }

  predicate IsHexDigit(b: byte) {
    IsDigit(b) || 'a' <= b <= 'f' || 'A' <= b <= 'F'
  }

  predicate IsTokenByte(b: byte) {
    || 'a' <= b <= 'z' || 'A' <= b <= 'Z' || IsDigit(b)
    || b == '!' || b == '#' || b == '$' || b == '%' || b == '&' || b == '\'' || b == '*' || b == '+'
    || b == '-' || b == '.' || b == '^' || b == '_' || b == '`' || b == '|' || b == '~'
  }

  predicate IsLineValueByte(b: byte) {
    b == '\t' || ' ' <= b <= '~' || 0x80 <= b as int
  }

  predicate IsFieldVchar(b: byte) {
    '!' <= b <= '~' || 0x80 <= b as int
  }

  predicate IsGraphic(b: byte) {
    '!' <= b <= '~'
  }

  // ------------------------------------------------------------------
  // ASCII case
  // ------------------------------------------------------------------

  function Lower(b: byte): byte {
    if 'A' <= b <= 'Z' then b + 32 as char else b
  }

  predicate EqIgnoreCase(s: bytes, t: bytes) {
    |s| == |t| && forall i :: 0 <= i < |s| ==> Lower(s[i]) == Lower(t[i])
  }

  // ------------------------------------------------------------------
  // Optional whitespace
  // ------------------------------------------------------------------

  function TrimStart(s: bytes): bytes {
    if s != [] && IsOws(s[0]) then TrimStart(s[1..]) else s
  }

  function TrimEnd(s: bytes): bytes {
    if s != [] && IsOws(s[|s| - 1]) then TrimEnd(s[..|s| - 1]) else s
  }

  function TrimOws(s: bytes): bytes {
    TrimEnd(TrimStart(s))
  }

  predicate Trimmed(s: bytes) {
    s == [] || (!IsOws(s[0]) && !IsOws(s[|s| - 1]))
  }

  /** Trimming removes a run of whitespace at each end and nothing else. */
  lemma {:induction false} TrimStartSplits(s: bytes) returns (lead: bytes)
    ensures s == lead + TrimStart(s)
    ensures forall b <- lead :: IsOws(b)
    ensures TrimStart(s) == [] || !IsOws(TrimStart(s)[0])
  {
    if s != [] && IsOws(s[0]) {
      lead := TrimStartSplits(s[1..]);
      lead := [s[0]] + lead;
    } else {
      lead := [];
    }
  }

  lemma {:induction false} TrimEndSplits(s: bytes) returns (tail: bytes)
    ensures s == TrimEnd(s) + tail
    ensures forall b <- tail :: IsOws(b)
    ensures TrimEnd(s) == [] || !IsOws(TrimEnd(s)[|TrimEnd(s)| - 1])
    decreases |s|
  {
    if s != [] && IsOws(s[|s| - 1]) {
      tail := TrimEndSplits(s[..|s| - 1]);
      tail := tail + [s[|s| - 1]];
    } else {
      tail := [];
    }
  }

  lemma TrimSplits(s: bytes) returns (lead: bytes, tail: bytes)
    ensures s == lead + TrimOws(s) + tail
    ensures forall b <- lead :: IsOws(b)
    ensures forall b <- tail :: IsOws(b)
    ensures Trimmed(TrimOws(s))
  {
    lead := TrimStartSplits(s);
    tail := TrimEndSplits(TrimStart(s));
  }

  // ------------------------------------------------------------------
  // Lists
  // ------------------------------------------------------------------

  /** The pieces between separators; the empty string has one empty piece. */
  function Split(s: bytes, separator: byte): (pieces: seq<bytes>)
    ensures pieces != []
  {
    if s == [] then [[]]
    else
      var rest := Split(s[1..], separator);
      if s[0] == separator then [[]] + rest else [[s[0]] + rest[0]] + rest[1..]
  }

  /** Pieces separated by a comma and a space, as Rust's `join` prints them. */
  function JoinList(pieces: seq<bytes>): bytes {
    if pieces == [] then []
    else if |pieces| == 1 then pieces[0]
    else pieces[0] + ", " + JoinList(pieces[1..])
  }

  function TrimAll(pieces: seq<bytes>): (trimmed: seq<bytes>)
    ensures |trimmed| == |pieces|
    ensures forall i :: 0 <= i < |pieces| ==> trimmed[i] == TrimOws(pieces[i])
  {
    if pieces == [] then [] else [TrimOws(pieces[0])] + TrimAll(pieces[1..])
  }

  /** The members of one comma-separated field value. */
  function Members(value: bytes): seq<bytes> {
    TrimAll(Split(value, ','))
  }

  lemma {:induction false} SplitPiece(s: bytes, separator: byte)
    requires separator !in s
    ensures Split(s, separator) == [s]
  {
    if s != [] {
      SplitPiece(s[1..], separator);
      assert [s[0]] + s[1..] == s;
    }
  }

  lemma {:induction false} SplitAtSeparator(s: bytes, separator: byte, t: bytes)
    requires separator !in s
    ensures Split(s + [separator] + t, separator) == [s] + Split(t, separator)
  {
    if s == [] {
      assert (s + [separator] + t)[1..] == t;
    } else {
      SplitAtSeparator(s[1..], separator, t);
      assert (s + [separator] + t)[1..] == s[1..] + [separator] + t;
      assert [s[0]] + s[1..] == s;
    }
  }

  /** What a list member looks like: no comma, no surrounding whitespace. */
  predicate IsMember(s: bytes) {
    ',' !in s && Trimmed(s)
  }

  lemma TrimMember(s: bytes)
    requires Trimmed(s)
    ensures TrimOws(s) == s
    ensures TrimOws([' '] + s) == s
  {
    assert ([' '] + s)[1..] == s;
    assert TrimStart(s) == s;
  }

  lemma {:induction false} MembersOfMember(s: bytes)
    requires IsMember(s)
    ensures Members(s) == [s]
    ensures Members([' '] + s) == [s]
  {
    SplitPiece(s, ',');
    SplitPiece([' '] + s, ',');
    TrimMember(s);
  }

  lemma SplitAgain(s: bytes, t: bytes)
    requires IsMember(s)
    ensures Members(s + "," + t) == [s] + Members(t)
    ensures Members([' '] + s + "," + t) == [s] + Members(t)
  {
    SplitAtSeparator(s, ',', t);
    SplitAtSeparator([' '] + s, ',', t);
    assert s + "," + t == s + [','] + t;
    TrimMember(s);
    assert TrimAll([s] + Split(t, ',')) == [s] + TrimAll(Split(t, ','));
    assert TrimAll([[' '] + s] + Split(t, ',')) == [s] + TrimAll(Split(t, ','));
  }

  /** Printing a list and splitting it again recovers the members. */
  lemma {:induction false} JoinThenSplit(pieces: seq<bytes>)
    requires pieces != [] && forall p <- pieces :: IsMember(p)
    ensures Members(JoinList(pieces)) == pieces
    ensures Members([' '] + JoinList(pieces)) == pieces
    decreases |pieces|
  {
    hide Members, IsMember;
    assert pieces[0] in pieces;
    if |pieces| == 1 {
      MembersOfMember(pieces[0]);
    } else {
      JoinThenSplit(pieces[1..]);
      var rest := [' '] + JoinList(pieces[1..]);
      SplitAgain(pieces[0], rest);
      assert JoinList(pieces) == pieces[0] + "," + rest by {
        assert ", " == "," + [' '];
      }
      assert [' '] + JoinList(pieces) == [' '] + pieces[0] + "," + rest;
      assert pieces == [pieces[0]] + pieces[1..];
    }
  }

  /** Every member of a list is a member in shape, and its bytes come from the list. */
  lemma {:induction false} SplitPieces(s: bytes, separator: byte)
    ensures forall p <- Split(s, separator) :: separator !in p && forall b <- p :: b in s
  {
    if s != [] {
      SplitPieces(s[1..], separator);
      var rest := Split(s[1..], separator);
      forall p <- Split(s, separator)
        ensures separator !in p && forall b <- p :: b in s
      {
        assert p in rest || p == [] || p == [s[0]] + rest[0];
      }
    }
  }

  lemma TrimKeepsBytes(s: bytes)
    ensures Trimmed(TrimOws(s))
    ensures forall b <- TrimOws(s) :: b in s
  {
    var lead, tail := TrimSplits(s);
  }

  lemma MembersAreMembers(value: bytes)
    ensures forall p <- Members(value) :: IsMember(p) && forall b <- p :: b in value
  {
    SplitPieces(value, ',');
    forall p <- Members(value)
      ensures IsMember(p) && forall b <- p :: b in value
    {
      var i :| 0 <= i < |Members(value)| && Members(value)[i] == p;
      var piece := Split(value, ',')[i];
      assert piece in Split(value, ',');
      TrimKeepsBytes(piece);
    }
  }
}
