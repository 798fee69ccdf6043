/**
 Header fields and what they decide (crates/h11r/src/wire.rs): list lookups,
 message framing, upgrade offers, and the rewriting of the Connection field.
 */
module Fields {
  import opened Prelude
  import opened Bytes
  import opened Numbers

  datatype Version = Http10 | Http11

  datatype Header = Header(name: bytes, value: bytes)

  datatype Framing = Fixed(length: nat) | Chunked | CloseDelimited

  // Field names, tokens and methods the protocol gives a meaning to.
  const CONNECTION: bytes := "connection"
  const UPGRADE: bytes := "upgrade"
  const CLOSE: bytes := "close"
  const KEEP_ALIVE: bytes := "keep-alive"
  const EXPECT: bytes := "expect"
  const CONTINUE_100: bytes := "100-continue"
  const TRANSFER_ENCODING: bytes := "transfer-encoding"
  const CONTENT_LENGTH: bytes := "content-length"
  const HOST: bytes := "host"
  const CONNECT: bytes := "CONNECT"
  const HEAD: bytes := "HEAD"
  const CHUNKED: bytes := "chunked"

  // ------------------------------------------------------------------
  // Lookups
  // ------------------------------------------------------------------

  /** The values of the fields with this name, in order. */
  function HeaderValues(headers: seq<Header>, name: bytes): seq<bytes> {
    if headers == [] then []
    else (if EqIgnoreCase(headers[0].name, name) then [headers[0].value] else []) + HeaderValues(headers[1..], name)
  }

  function CountHeader(headers: seq<Header>, name: bytes): nat {
    |HeaderValues(headers, name)|
  }

  function AllMembers(values: seq<bytes>): seq<bytes> {
    if values == [] then [] else Members(values[0]) + AllMembers(values[1..])
  }

  /** The members of all comma lists with this field name. */
  function Elements(headers: seq<Header>, name: bytes): seq<bytes> {
    AllMembers(HeaderValues(headers, name))
  }

  predicate HasToken(headers: seq<Header>, name: bytes, token: bytes) {
    exists member <- Elements(headers, name) :: EqIgnoreCase(member, token)
  }

  // ------------------------------------------------------------------
  // Upgrade
  // ------------------------------------------------------------------

  predicate ValidName(name: bytes) {
    name != [] && forall b <- name :: IsTokenByte(b)
  }

  predicate ValidProtocol(value: bytes) {
    var parts := Split(value, '/');
    |parts| <= 2 && forall part <- parts :: ValidName(part)
  }

  function NonEmpty(members: seq<bytes>): seq<bytes> {
    if members == [] then []
    else (if members[0] == [] then [] else [members[0]]) + NonEmpty(members[1..])
  }

  /** The offered or selected protocols; `None` when the field is malformed. */
  function UpgradeProtocols(headers: seq<Header>): Option<seq<bytes>> {
    var protocols := NonEmpty(Elements(headers, UPGRADE));
    if exists p <- protocols :: !ValidProtocol(p) then None
    else if CountHeader(headers, UPGRADE) > 0 && protocols == [] then None
    else Some(protocols)
  }

  /** Everything before the first slash, and what follows it if there is one. */
  function SplitOnce(s: bytes): (bytes, Option<bytes>) {
    if s == [] then ([], None)
    else if s[0] == '/' then ([], Some(s[1..]))
    else
      var rest := SplitOnce(s[1..]);
      ([s[0]] + rest.0, rest.1)
  }

  /** Protocol names match without regard to case, versions exactly. */
  predicate ProtocolMatches(left: bytes, right: bytes) {
    EqIgnoreCase(SplitOnce(left).0, SplitOnce(right).0) && SplitOnce(left).1 == SplitOnce(right).1
  }

  // ------------------------------------------------------------------
  // Framing
  // ------------------------------------------------------------------

  datatype FramingResult = Framed(framing: Framing) | BadFraming(status: nat)

  predicate IsChunked(coding: bytes) {
    EqIgnoreCase(coding, CHUNKED)
  }

  function TransferFraming(transfer: seq<bytes>, version: Version): FramingResult
    requires transfer != []
  {
    var last := |transfer| - 1;
    if version == Http10 then BadFraming(400)
    else if exists c <- transfer :: c == [] then BadFraming(400)
    else if |transfer| == 1 && !IsChunked(transfer[0]) then BadFraming(501)
    else if !IsChunked(transfer[last]) || exists c <- transfer[..last] :: IsChunked(c) then BadFraming(400)
    else if exists c <- transfer[..last] :: !IsChunked(c) then BadFraming(501)
    else Framed(Chunked)
  }

  function LengthFraming(lengths: seq<bytes>): FramingResult {
    if lengths == [] then Framed(Fixed(0))
    else
      match ParseNumber(lengths[0], 10)
      case None => BadFraming(400)
      case Some(first) =>
        if exists value <- lengths :: ParseNumber(value, 10) != Some(first) then BadFraming(400)
        else Framed(Fixed(first))
  }

  function SelectFraming(headers: seq<Header>, version: Version): FramingResult {
    var transfer := Elements(headers, TRANSFER_ENCODING);
    var lengths := Elements(headers, CONTENT_LENGTH);
    if transfer != [] && lengths != [] then BadFraming(400)
    else if transfer != [] then TransferFraming(transfer, version)
    else LengthFraming(lengths)
  }

  function FramingFields(headers: seq<Header>): nat {
    CountHeader(headers, TRANSFER_ENCODING) + CountHeader(headers, CONTENT_LENGTH)
  }

  function ResponseFraming(headers: seq<Header>, version: Version): FramingResult {
    if FramingFields(headers) == 0 then Framed(CloseDelimited) else SelectFraming(headers, version)
  }

  predicate ExpectsContinue(version: Version, headers: seq<Header>, framing: Framing) {
    version == Http11 && framing != Fixed(0) && HasToken(headers, EXPECT, CONTINUE_100)
  }

  /** Whether a message leaves the connection reusable. */
  predicate Persistent(version: Version, headers: seq<Header>) {
    version == Http11 && !HasToken(headers, CONNECTION, CLOSE)
  }

  /** Which field sections select which framing: chunked only as the one
      transfer coding of an HTTP/1.1 message, a length only when every value
      denotes it, nothing when both kinds are present. */
  lemma FramingExact(headers: seq<Header>, version: Version, n: nat)
    ensures var transfer := Elements(headers, TRANSFER_ENCODING);
      var lengths := Elements(headers, CONTENT_LENGTH);
      && (SelectFraming(headers, version) == Framed(Chunked) <==>
            version == Http11 && lengths == [] && |transfer| == 1 && IsChunked(transfer[0]))
      && (SelectFraming(headers, version) == Framed(Fixed(n)) <==>
            transfer == [] && if lengths == [] then n == 0 else forall value <- lengths :: Denotes(value, n))
      && SelectFraming(headers, version) != Framed(CloseDelimited)
  {
    hide TransferFraming, LengthFraming, Elements, IsChunked;
    var transfer := Elements(headers, TRANSFER_ENCODING);
    var lengths := Elements(headers, CONTENT_LENGTH);
    if transfer != [] {
      TransferFramingExact(transfer, version);
    }
    LengthFramingExact(lengths, n);
  }

  /** A decimal length that fits in a `usize`. */
  predicate Denotes(value: bytes, n: nat) {
    value != [] && AllDigits(value, 10) && Value(value, 10) == n <= USIZE_MAX
  }

  lemma LengthFramingExact(lengths: seq<bytes>, n: nat)
    ensures LengthFraming(lengths) == Framed(Fixed(n)) <==>
      if lengths == [] then n == 0 else forall value <- lengths :: Denotes(value, n)
    ensures LengthFraming(lengths).Framed? ==> LengthFraming(lengths).framing.Fixed?
  {
    hide ParseNumber, AllDigits, Value;
    forall value <- lengths
      ensures ParseNumber(value, 10) == Some(n) <==> Denotes(value, n)
    {
      ParseNumberExact(value, 10);
    }
    assert lengths != [] ==> lengths[0] in lengths;
  }

  lemma TransferFramingExact(transfer: seq<bytes>, version: Version)
    requires transfer != []
    ensures TransferFraming(transfer, version) == Framed(Chunked) <==>
      version == Http11 && |transfer| == 1 && IsChunked(transfer[0])
    ensures TransferFraming(transfer, version).Framed? ==> TransferFraming(transfer, version).framing == Chunked
  {
    var last := |transfer| - 1;
    if |transfer| > 1 {
      assert transfer[0] in transfer[..last];
    }
  }

  /** Codings in a legal order: none empty, chunked last if at all, and last
      whenever there are several. */
  predicate WellOrdered(transfer: seq<bytes>) {
    && (forall i :: 0 <= i < |transfer| ==> transfer[i] != [])
    && (forall i :: 0 <= i < |transfer| - 1 ==> !IsChunked(transfer[i]))
    && (|transfer| > 1 ==> IsChunked(transfer[|transfer| - 1]))
  }

  /** Rejected framing is 501 exactly for a legal order of codings in HTTP/1.1
      that includes one besides chunked, and 400 otherwise. */
  lemma RejectionExact(headers: seq<Header>, version: Version)
    ensures var transfer := Elements(headers, TRANSFER_ENCODING);
      var rejected := SelectFraming(headers, version);
      && (rejected == BadFraming(501) <==>
            && version == Http11 && Elements(headers, CONTENT_LENGTH) == [] && transfer != []
            && WellOrdered(transfer) && exists coding <- transfer :: !IsChunked(coding))
      && (rejected.BadFraming? ==> rejected.status == 501 || rejected.status == 400)
  {
    hide LengthFraming, Elements, IsChunked;
    var transfer := Elements(headers, TRANSFER_ENCODING);
    LengthRejection(Elements(headers, CONTENT_LENGTH));
    if transfer != [] {
      TransferRejection(transfer, version);
    }
  }

  lemma LengthRejection(lengths: seq<bytes>)
    ensures LengthFraming(lengths).BadFraming? ==> LengthFraming(lengths).status == 400
  {
    hide ParseNumber;
  }

  lemma TransferRejection(transfer: seq<bytes>, version: Version)
    requires transfer != []
    ensures TransferFraming(transfer, version) == BadFraming(501) <==>
      version == Http11 && WellOrdered(transfer) && exists coding <- transfer :: !IsChunked(coding)
    ensures TransferFraming(transfer, version).BadFraming? ==>
      TransferFraming(transfer, version).status == 501 || TransferFraming(transfer, version).status == 400
  {
    hide IsChunked;
    var last := |transfer| - 1;
    var front := transfer[..last];
    assert forall i :: 0 <= i < last ==> transfer[i] == front[i];
    if WellOrdered(transfer) {
      assert forall c <- transfer :: c != [];
      assert forall c <- front :: !IsChunked(c);
      if last > 0 {
        assert front[0] in front && front[0] in transfer;
      } else {
        assert transfer == [transfer[0]];
      }
    }
    if TransferFraming(transfer, version) == BadFraming(501) {
      assert forall i :: 0 <= i <= last ==> transfer[i] in transfer;
      assert forall i :: 0 <= i < last ==> front[i] in front;
      if last > 0 {
        var c :| c in front && !IsChunked(c);
        assert c in transfer;
      } else {
        assert transfer[0] in transfer;
      }
    }
  }

  // ------------------------------------------------------------------
  // Connection: close
  // ------------------------------------------------------------------

  /** The connection options that survive the rewriting. */
  function KeptOptions(members: seq<bytes>): seq<bytes> {
    if members == [] then []
    else if members[0] == [] || EqIgnoreCase(members[0], CLOSE) || EqIgnoreCase(members[0], KEEP_ALIVE)
    then KeptOptions(members[1..])
    else [members[0]] + KeptOptions(members[1..])
  }

  function Without(headers: seq<Header>, name: bytes): seq<Header> {
    if headers == [] then []
    else (if EqIgnoreCase(headers[0].name, name) then [] else [headers[0]]) + Without(headers[1..], name)
  }

  function SetConnectionClose(headers: seq<Header>): seq<Header> {
    var options := KeptOptions(Elements(headers, CONNECTION)) + [CLOSE];
    Without(headers, CONNECTION) + [Header("Connection", JoinList(options))]
  }

  lemma EqIgnoreCaseTransitive(s: bytes, t: bytes, u: bytes)
    requires EqIgnoreCase(s, t) && EqIgnoreCase(t, u)
    ensures EqIgnoreCase(s, u)
  {
  }

  lemma {:induction false} HeaderValuesConcat(h: seq<Header>, g: seq<Header>, name: bytes)
    ensures HeaderValues(h + g, name) == HeaderValues(h, name) + HeaderValues(g, name)
    decreases |h|
  {
    if h == [] {
      assert h + g == g;
    } else {
      assert (h + g)[1..] == h[1..] + g;
      HeaderValuesConcat(h[1..], g, name);
    }
  }

  /** Removing a field leaves the other fields alone. */
  lemma {:induction false} WithoutValues(headers: seq<Header>, removed: bytes, name: bytes)
    ensures HeaderValues(Without(headers, removed), name)
         == if EqIgnoreCase(removed, name) then [] else HeaderValues(headers, name)
    decreases |headers|
  {
    hide EqIgnoreCase;
    if headers != [] {
      WithoutValues(headers[1..], removed, name);
      var field := headers[0].name;
      if EqIgnoreCase(field, removed) {
        if EqIgnoreCase(field, name) {
          EqIgnoreCaseSymmetric(field, removed);
          EqIgnoreCaseTransitive(removed, field, name);
        }
        if EqIgnoreCase(removed, name) {
          EqIgnoreCaseTransitive(field, removed, name);
        }
        assert Without(headers, removed) == Without(headers[1..], removed);
      } else {
        if EqIgnoreCase(field, name) && EqIgnoreCase(removed, name) {
          EqIgnoreCaseSymmetric(removed, name);
          EqIgnoreCaseTransitive(field, name, removed);
        }
        assert [headers[0]] + Without(headers[1..], removed) == Without(headers, removed);
      }
    }
  }

  lemma {:induction false} KeptOptionsAreKept(members: seq<bytes>)
    requires forall m <- members :: IsMember(m)
    ensures forall m <- KeptOptions(members) ::
      && IsMember(m) && m in members && m != []
      && !EqIgnoreCase(m, CLOSE) && !EqIgnoreCase(m, KEEP_ALIVE)
    decreases |members|
  {
    hide IsMember, EqIgnoreCase;
    if members != [] {
      assert members[0] in members;
      KeptOptionsAreKept(members[1..]);
    }
  }

  lemma {:induction false} ElementsAreMembers(values: seq<bytes>)
    ensures forall m <- AllMembers(values) :: IsMember(m)
    decreases |values|
  {
    hide IsMember, Members;
    if values != [] {
      MembersAreMembers(values[0]);
      ElementsAreMembers(values[1..]);
    }
  }

  lemma CloseIsMember()
    ensures IsMember(CLOSE)
  {
  }

  lemma ConnectionName()
    ensures EqIgnoreCase("Connection", CONNECTION)
  {
  }

  /** Split again, the rewritten field holds the old options without `close`
      and `keep-alive`, followed by `close`. */
  lemma CloseOptions(headers: seq<Header>)
    ensures Elements(SetConnectionClose(headers), CONNECTION)
         == KeptOptions(Elements(headers, CONNECTION)) + [CLOSE]
  {
    hide Members, IsMember, EqIgnoreCase, KeptOptions, JoinList;
    var options := KeptOptions(Elements(headers, CONNECTION)) + [CLOSE];
    var rest := Without(headers, CONNECTION);
    var field := Header("Connection", JoinList(options));
    ElementsAreMembers(HeaderValues(headers, CONNECTION));
    KeptOptionsAreKept(Elements(headers, CONNECTION));
    CloseIsMember();
    JoinThenSplit(options);
    HeaderValuesConcat(rest, [field], CONNECTION);
    WithoutValues(headers, CONNECTION, CONNECTION);
    EqIgnoreCaseReflexive(CONNECTION);
    ConnectionName();
    assert HeaderValues([field], CONNECTION) == [field.value];
    assert HeaderValues(SetConnectionClose(headers), CONNECTION) == [field.value];
    assert AllMembers([field.value]) == Members(field.value);
  }

  lemma EqIgnoreCaseReflexive(s: bytes)
    ensures EqIgnoreCase(s, s)
  {
  }

  /** The rewriting signals closure and touches no other field. */
  lemma CloseSignalled(headers: seq<Header>)
    ensures HasToken(SetConnectionClose(headers), CONNECTION, CLOSE)
    ensures forall name :: !EqIgnoreCase(CONNECTION, name) ==>
      HeaderValues(SetConnectionClose(headers), name) == HeaderValues(headers, name)
  {
    CloseOptions(headers);
    var options := KeptOptions(Elements(headers, CONNECTION));
    EqIgnoreCaseReflexive(CLOSE);
    assert (options + [CLOSE])[|options|] == CLOSE;
    forall name: bytes | !EqIgnoreCase(CONNECTION, name)
      ensures HeaderValues(SetConnectionClose(headers), name) == HeaderValues(headers, name)
    {
      CloseLeavesOthers(headers, name);
    }
  }

  lemma CloseLeavesOthers(headers: seq<Header>, name: bytes)
    requires !EqIgnoreCase(CONNECTION, name)
    ensures HeaderValues(SetConnectionClose(headers), name) == HeaderValues(headers, name)
  {
    hide EqIgnoreCase, KeptOptions, JoinList, Elements;
    var rest := Without(headers, CONNECTION);
    var field := SetConnectionClose(headers)[|rest|];
    WithoutValues(headers, CONNECTION, name);
    HeaderValuesConcat(rest, [field], name);
    ConnectionName();
    if EqIgnoreCase("Connection", name) {
      EqIgnoreCaseSymmetric("Connection", CONNECTION);
      EqIgnoreCaseTransitive(CONNECTION, "Connection", name);
    }
    assert HeaderValues([field], name) == [];
  }

  lemma EqIgnoreCaseSymmetric(s: bytes, t: bytes)
    requires EqIgnoreCase(s, t)
    ensures EqIgnoreCase(t, s)
  {
  }
}
