// The four records the protocol signs, and the bytes their signatures cover.
module Messages {
  import opened Wrappers
  import opened CanonicalJson

  const VERSION := 1

  type Byte = b: int | 0 <= b < 256
  type Six = b: int | 0 <= b < 64

  datatype Share = Share(version: int, serviceId: string, networkId: string, deviceId: string,
                         fingerprint: string, nonce: string, expiresAt: int, signature: string)

  datatype Lease = Lease(version: int, serviceId: string, userId: string, networkId: string,
                         pairId: string, attemptId: string, fromDeviceId: string, toDeviceId: string,
                         generation: nat, revision: nat, expiresAt: int, permission: string, signature: string)

  datatype Kind = Offer | Answer | Candidate | EndOfCandidates | UnknownKind(name: string)

  datatype Signal = Signal(version: int, kind: Kind, messageId: string, attemptId: string, generation: nat,
                           fromDeviceId: string, toDeviceId: string, pairId: string, sequence: nat,
                           expiresAt: int, payload: string, signature: string)

  datatype EnrollmentQuery = EnrollmentQuery(requestId: string, publicKey: seq<Byte>, issuedAt: int,
                                             signature: string)

  datatype Signed =
    | SignedShare(share: Share)
    | SignedLease(lease: Lease)
    | SignedSignal(signal: Signal)
    | SignedQuery(query: EnrollmentQuery)

  predicate LowerHex(c: char) { '0' <= c <= '9' || 'a' <= c <= 'f' }

  predicate ValidID(id: string) {
    |id| == 12 && forall c :: c in id ==> LowerHex(c)
  }

  // ---- unpadded base64url, RFC 4648 section 5 ----

  function Letter(i: int): (c: char)
    requires 0 <= i < 64
    ensures c != '\n'
  {
    if i < 26 then ('A' as int + i) as char
    else if i < 52 then ('a' as int + i - 26) as char
    else if i < 62 then ('0' as int + i - 52) as char
    else if i == 62 then '-' else '_'
  }

  function Base64Url(bytes: seq<Byte>): (text: string) {
    if |bytes| == 0 then ""
    else if |bytes| == 1 then [Letter(bytes[0] / 4), Letter(bytes[0] % 4 * 16)]
    else if |bytes| == 2 then
      [Letter(bytes[0] / 4), Letter(bytes[0] % 4 * 16 + bytes[1] / 16), Letter(bytes[1] % 16 * 4)]
    else
      [Letter(bytes[0] / 4), Letter(bytes[0] % 4 * 16 + bytes[1] / 16),
       Letter(bytes[1] % 16 * 4 + bytes[2] / 64), Letter(bytes[2] % 64)] + Base64Url(bytes[3..])
  }

  // ---- the signing bytes ----

  function ShareItems(s: Share): (items: seq<Scalar>) {
    [Text("dshker.pair-share.v1"), Number(s.version), Text(s.serviceId), Text(s.networkId), Text(s.deviceId),
     Text(s.fingerprint), Text(s.nonce), Number(s.expiresAt)]
  }

  function LeaseItems(l: Lease): (items: seq<Scalar>) {
    [Text("dshker.lease.v1"), Number(l.version), Text(l.serviceId), Text(l.userId), Text(l.networkId),
     Text(l.pairId), Text(l.attemptId), Text(l.fromDeviceId), Text(l.toDeviceId), Number(l.generation),
     Number(l.revision), Number(l.expiresAt), Text(l.permission)]
  }

  function KindName(kind: Kind): (text: string) {
    match kind
    case Offer => "offer"
    case Answer => "answer"
    case Candidate => "candidate"
    case EndOfCandidates => "end-of-candidates"
    case UnknownKind(name) => name
  }

  function SignalItems(s: Signal): (items: seq<Scalar>) {
    [Text("dshker.signal.v1"), Number(s.version), Text(KindName(s.kind)), Text(s.messageId), Text(s.attemptId),
     Number(s.generation), Text(s.fromDeviceId), Text(s.toDeviceId), Text(s.pairId), Number(s.sequence),
     Number(s.expiresAt), Text(s.payload)]
  }

  function QueryBytes(q: EnrollmentQuery): (text: string) {
    QUERY_DOMAIN + q.requestId + "\n" + Base64Url(q.publicKey) + "\n" + Decimal(q.issuedAt)
  }

  function Items(m: Signed): (items: seq<Scalar>)
    requires !m.SignedQuery?
    ensures items != []
  {
    match m
    case SignedShare(s) => ShareItems(s)
    case SignedLease(l) => LeaseItems(l)
    case SignedSignal(s) => SignalItems(s)
  }

  function SigningBytes(m: Signed): (text: string) {
    if m.SignedQuery? then QueryBytes(m.query) else Marshal(Items(m))
  }

  // Two records carry the same statement: everything but the signature agrees.
  predicate SameStatement(a: Signed, b: Signed) {
    match (a, b)
    case (SignedShare(s), SignedShare(t)) => s.(signature := "") == t.(signature := "")
    case (SignedLease(s), SignedLease(t)) => s.(signature := "") == t.(signature := "")
    case (SignedSignal(s), SignedSignal(t)) => s.(signature := "") == t.(signature := "")
    case (SignedQuery(s), SignedQuery(t)) => s.(signature := "") == t.(signature := "")
    case _ => false
  }

  // A signature made over a statement verifies over the same statement.
  ghost predicate LawfulSigning(sign: Signed -> string, verify: (Signed, string) -> bool) {
    forall m, n :: SameStatement(m, n) ==> verify(m, sign(n))
  }

  // The shapes the code accepts before it verifies a signature. The JSON records
  // need none; a signal's kind must be one of the four, and a query's request id
  // a valid identifier.
  predicate Accepted(m: Signed) {
    match m
    case SignedSignal(s) => !s.kind.UnknownKind?
    case SignedQuery(q) => ValidID(q.requestId)
    case _ => true
  }

  // ---- injectivity ----

  lemma {:induction false} Base64Length(x: seq<Byte>)
    ensures |Base64Url(x)| == |x| / 3 * 4 + (if |x| % 3 == 0 then 0 else |x| % 3 + 1)
    ensures forall c :: c in Base64Url(x) ==> c != '\n'
  {
    if |x| >= 3 {
      Base64Length(x[3..]);
    }
  }

  // The value of a letter of the alphabet, RFC 4648 section 5.
  function Sextet(c: char): (value: Option<Six>) {
    if 'A' <= c <= 'Z' then Some(c as nat - 'A' as nat)
    else if 'a' <= c <= 'z' then Some(26 + c as nat - 'a' as nat)
    else if '0' <= c <= '9' then Some(52 + c as nat - '0' as nat)
    else if c == '-' then Some(62)
    else if c == '_' then Some(63)
    else None
  }

  // The values of all letters, or None when one is foreign.
  function Sextets(text: string): (values: Option<seq<Six>>) {
    if forall i :: 0 <= i < |text| ==> Sextet(text[i]).Some?
    then Some(seq(|text|, i requires 0 <= i < |text| => Sextet(text[i]).value))
    else None
  }

  // Every four values are three bytes; two or three at the end are one or two.
  function Octets(values: seq<Six>): (bytes: Option<seq<Byte>>) {
    if |values| == 0 then Some([])
    else if |values| == 1 then None
    else
      var first: Byte := values[0] as int * 4 + values[1] as int / 16;
      if |values| == 2 then Some([first])
      else
        var second: Byte := values[1] as int % 16 * 16 + values[2] as int / 4;
        if |values| == 3 then Some([first, second])
        else
          match Octets(values[4..])
          case None => None
          case Some(bytes) =>
            var third: Byte := values[2] as int % 4 * 64 + values[3] as int;
            Some([first, second, third] + bytes)
  }

  function FromBase64Url(text: string): (bytes: Option<seq<Byte>>) {
    if Sextets(text).Some? then Octets(Sextets(text).value) else None
  }

  // The bytes as values of six bits.
  function SixBits(x: seq<Byte>): (values: seq<Six>) {
    if |x| == 0 then []
    else if |x| == 1 then [x[0] / 4, x[0] % 4 * 16]
    else if |x| == 2 then [x[0] / 4, x[0] % 4 * 16 + x[1] / 16, x[1] % 16 * 4]
    else [x[0] / 4, x[0] % 4 * 16 + x[1] / 16, x[1] % 16 * 4 + x[2] / 64, x[2] % 64] + SixBits(x[3..])
  }

  lemma LetterReadsBack(i: int)
    requires 0 <= i < 64
    ensures Sextet(Letter(i)) == Some(i)
  {
  }

  lemma {:induction false} LettersOfSixBits(x: seq<Byte>)
    ensures |Base64Url(x)| == |SixBits(x)|
    ensures forall i :: 0 <= i < |SixBits(x)| ==> Base64Url(x)[i] == Letter(SixBits(x)[i])
  {
    if |x| >= 3 {
      LettersOfSixBits(x[3..]);
    }
  }

  lemma Base64IsSixBits(x: seq<Byte>)
    ensures Sextets(Base64Url(x)) == Some(SixBits(x))
  {
    LettersOfSixBits(x);
    forall i | 0 <= i < |SixBits(x)| ensures Sextet(Base64Url(x)[i]) == Some(SixBits(x)[i]) {
      LetterReadsBack(SixBits(x)[i]);
    }
    assert Sextets(Base64Url(x)).Some? && Sextets(Base64Url(x)).value == SixBits(x);
  }

  lemma {:induction false} SixBitsReadBack(x: seq<Byte>)
    ensures Octets(SixBits(x)) == Some(x)
  {
    if |x| >= 3 {
      SixBitsReadBack(x[3..]);
      assert SixBits(x)[4..] == SixBits(x[3..]);
      assert x == [x[0], x[1], x[2]] + x[3..];
    } else if |x| == 2 {
      assert x == [x[0], x[1]];
    } else if |x| == 1 {
      assert x == [x[0]];
    }
  }

  // Reading the text back gives the bytes.
  lemma Base64ReadsBack(x: seq<Byte>)
    ensures FromBase64Url(Base64Url(x)) == Some(x)
  {
    Base64IsSixBits(x);
    SixBitsReadBack(x);
  }

  // So no two byte strings have the same text.
  lemma Base64Injective(x: seq<Byte>, y: seq<Byte>)
    requires Base64Url(x) == Base64Url(y)
    ensures x == y
  {
    Base64ReadsBack(x);
    Base64ReadsBack(y);
  }

  // Text before the first line break, and what follows it, can be told apart.
  lemma LineUnambiguous(a: string, b: string, u: string, v: string)
    requires a + "\n" + u == b + "\n" + v
    requires (forall c :: c in a ==> c != '\n') && (forall c :: c in b ==> c != '\n')
    ensures a == b && u == v
  {
    var s := a + "\n" + u;
    assert s == b + "\n" + v;
    LineLength(a, u);
    LineLength(b, v);
    assert a == s[..|a|] && b == s[..|b|] && u == s[|a| + 1..] && v == s[|b| + 1..];
  }

  lemma LineLength(a: string, u: string)
    requires forall c :: c in a ==> c != '\n'
    ensures (a + "\n" + u)[|a|] == '\n'
    ensures forall i :: 0 <= i < |a| ==> (a + "\n" + u)[i] != '\n'
  {
    forall i | 0 <= i < |a| ensures (a + "\n" + u)[i] != '\n' {
      assert a[i] in a;
    }
  }

  const QUERY_DOMAIN := "dshker.enrollment-query.v1\n"

  // The query's bytes after its domain, and after its request id.
  function QueryBody(q: EnrollmentQuery): (text: string) { q.requestId + "\n" + QueryTail(q) }

  function QueryTail(q: EnrollmentQuery): (text: string) { Base64Url(q.publicKey) + "\n" + Decimal(q.issuedAt) }

  lemma QueryParts(q: EnrollmentQuery)
    ensures QueryBytes(q) == QUERY_DOMAIN + QueryBody(q)
  {
    assert q.requestId + "\n" + Base64Url(q.publicKey) + "\n" + Decimal(q.issuedAt) == QueryBody(q);
  }

  lemma QueryTailInjective(p: EnrollmentQuery, q: EnrollmentQuery)
    requires QueryTail(p) == QueryTail(q)
    ensures p.publicKey == q.publicKey && p.issuedAt == q.issuedAt
  {
    Base64Length(p.publicKey);
    Base64Length(q.publicKey);
    LineUnambiguous(Base64Url(p.publicKey), Base64Url(q.publicKey), Decimal(p.issuedAt), Decimal(q.issuedAt));
    Base64Injective(p.publicKey, q.publicKey);
    NumberReadsBack(p.issuedAt, "]");
    NumberReadsBack(q.issuedAt, "]");
  }

  lemma QueryInjective(p: EnrollmentQuery, q: EnrollmentQuery)
    requires ValidID(p.requestId) && ValidID(q.requestId) && QueryBytes(p) == QueryBytes(q)
    ensures p.(signature := "") == q.(signature := "")
  {
    QueryParts(p);
    QueryParts(q);
    assert QueryBytes(p)[|QUERY_DOMAIN|..] == QueryBody(p) && QueryBytes(q)[|QUERY_DOMAIN|..] == QueryBody(q);
    LineUnambiguous(p.requestId, q.requestId, QueryTail(p), QueryTail(q));
    QueryTailInjective(p, q);
  }

  lemma ItemsDetermine(a: Signed, b: Signed)
    requires !a.SignedQuery? && !b.SignedQuery? && Accepted(a) && Accepted(b) && Items(a) == Items(b)
    ensures SameStatement(a, b)
  {
  }

  lemma JsonInjective(a: Signed, b: Signed)
    requires !a.SignedQuery? && !b.SignedQuery? && Accepted(a) && Accepted(b)
    requires Marshal(Items(a)) == Marshal(Items(b))
    ensures SameStatement(a, b)
  {
    var x, y := Items(a), Items(b);
    MarshalInjective(x, y);
    ItemsDetermine(a, b);
  }

  // What a JSON reader finds in the bytes of the three JSON records: the arrays the
  // protocol documents.
  lemma SigningBytesAreDocumented(m: Signed)
    requires !m.SignedQuery?
    ensures ReadArray(SigningBytes(m))
            == match m
               case SignedShare(s) =>
                 Some([Text("dshker.pair-share.v1"), Number(s.version), Text(s.serviceId), Text(s.networkId),
                       Text(s.deviceId), Text(s.fingerprint), Text(s.nonce), Number(s.expiresAt)])
               case SignedLease(l) =>
                 Some([Text("dshker.lease.v1"), Number(l.version), Text(l.serviceId), Text(l.userId),
                       Text(l.networkId), Text(l.pairId), Text(l.attemptId), Text(l.fromDeviceId),
                       Text(l.toDeviceId), Number(l.generation), Number(l.revision), Number(l.expiresAt),
                       Text(l.permission)])
               case SignedSignal(s) =>
                 Some([Text("dshker.signal.v1"), Number(s.version), Text(KindName(s.kind)), Text(s.messageId),
                       Text(s.attemptId), Number(s.generation), Text(s.fromDeviceId), Text(s.toDeviceId),
                       Text(s.pairId), Number(s.sequence), Number(s.expiresAt), Text(s.payload)])
  {
    MarshalReadsBack(Items(m));
  }

  lemma QueryStarts(q: EnrollmentQuery)
    ensures |QueryBytes(q)| > 0 && QueryBytes(q)[0] == 'd'
  {
    QueryParts(q);
    assert QUERY_DOMAIN[0] == 'd';
  }

  lemma SigningStarts(m: Signed)
    ensures |SigningBytes(m)| > 0 && SigningBytes(m)[0] == if m.SignedQuery? then 'd' else '['
  {
    if m.SignedQuery? {
      QueryStarts(m.query);
    }
  }

  // A signature speaks for one statement only: over every pair of accepted
  // records, of the same kind or not, equal signing bytes mean the same kind
  // and the same fields.
  lemma SigningBytesInjective(a: Signed, b: Signed)
    requires Accepted(a) && Accepted(b) && SigningBytes(a) == SigningBytes(b)
    ensures SameStatement(a, b)
  {
    SigningStarts(a);
    SigningStarts(b);
    if a.SignedQuery? {
      QueryInjective(a.query, b.query);
    } else {
      JsonInjective(a, b);
    }
  }
}
