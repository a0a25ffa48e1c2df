/** Approval tokens: what issuing writes, verifying reads back, and under an ideal MAC nothing else is
    accepted. */
module ApprovalToken {
  import opened Decimal

  /** The parts of an approval record that a token is bound to. */
  datatype Record = Record(recordId: string, payloadHash: string)

  datatype Verdict = Accepted(requesterId: string) | Denied | TypeError

  /** A keyed hash: its hexadecimal digest for a secret and a message. */
  type Mac = (string, string) -> string

  predicate IsHex(c: char) {
    '0' <= c <= '9' || 'a' <= c <= 'f'
  }

  ghost predicate HexDigests(mac: Mac) {
    forall secret, message :: forall i :: 0 <= i < |mac(secret, message)| ==> IsHex(mac(secret, message)[i])
  }

  // ---- Splitting -----------------------------------------------------------------------------

  datatype Split = Parts(before: string, after: string) | NoSeparator

  /** At the first c. */
  function SplitFirst(s: string, c: char): Split {
    if s == "" then NoSeparator
    else if s[0] == c then Parts("", s[1..])
    else
      match SplitFirst(s[1..], c)
      case Parts(before, after) => Parts([s[0]] + before, after)
      case NoSeparator => NoSeparator
  }

  /** At the last c. */
  function SplitLast(s: string, c: char): Split {
    if s == "" then NoSeparator
    else if s[|s| - 1] == c then Parts(s[..|s| - 1], "")
    else
      match SplitLast(s[..|s| - 1], c)
      case Parts(before, after) => Parts(before, after + [s[|s| - 1]])
      case NoSeparator => NoSeparator
  }

  lemma {:induction false} SplitFirstIs(a: string, b: string, c: char)
    requires c !in a
    ensures SplitFirst(a + [c] + b, c) == Parts(a, b)
  {
    var s := a + [c] + b;
    if a == "" {
      assert s[1..] == b;
    } else {
      assert s[1..] == a[1..] + [c] + b && a == [a[0]] + a[1..];
      SplitFirstIs(a[1..], b, c);
    }
  }

  lemma {:induction false} SplitLastIs(a: string, b: string, c: char)
    requires c !in b
    ensures SplitLast(a + [c] + b, c) == Parts(a, b)
  {
    var s := a + [c] + b;
    if b == "" {
      assert s[..|s| - 1] == a;
    } else {
      var b' := b[..|b| - 1];
      assert s[..|s| - 1] == a + [c] + b' && b == b' + [b[|b| - 1]];
      SplitLastIs(a, b', c);
    }
  }

  lemma {:induction false} SplitFirstFinds(s: string, c: char)
    ensures match SplitFirst(s, c)
            case Parts(a, b) => s == a + [c] + b && c !in a
            case NoSeparator => c !in s
  {
    if s != "" && s[0] != c {
      SplitFirstFinds(s[1..], c);
      assert s == [s[0]] + s[1..];
    }
  }

  // ---- Issue and verify ----------------------------------------------------------------------

  function SigningString(recordId: string, payloadHash: string, requesterId: string, exp: int): string {
    recordId + ":" + payloadHash + ":" + requesterId + ":" + IntText(exp)
  }

  function Sign(mac: Mac, secret: string, record: Record, requesterId: string, exp: int): string {
    mac(secret, SigningString(record.recordId, record.payloadHash, requesterId, exp))
  }

  /** The whole second after which a token issued at time `at` has expired. */
  function Expiry(at: real, ttl: int): int
    requires at >= 0.0
  {
    at.Floor + ttl
  }

  /** Issuing never fails; with an empty secret the token it mints can never verify. */
  function IssueApprovalToken(mac: Mac, secret: string, record: Record, requesterId: string, ttl: int, at: real): string
    requires at >= 0.0
  {
    var exp := Expiry(at, ttl);
    record.recordId + "." + requesterId + "." + IntText(exp) + "." + Sign(mac, secret, record, requesterId, exp)
  }

  predicate Ascii(s: string) {
    forall i :: 0 <= i < |s| ==> s[i] < '\U{80}'
  }

  function VerifyApprovalToken(mac: Mac, secret: string, token: string, record: Record, now: real): Verdict {
    if secret == "" || token == "" then Denied
    else
      match SplitLast(token, '.')
      case NoSeparator => Denied
      case Parts(front, sig) =>
        match SplitLast(front, '.')
        case NoSeparator => Denied
        case Parts(head, expText) =>
          VerifyParts(mac, secret, head, expText, sig, record, now)
  }

  /** The record id and requester id are checked first, then the expiry, and last the signature. */
  function VerifyParts(mac: Mac, secret: string, head: string, expText: string, sig: string, record: Record,
                       now: real): Verdict
  {
    match SplitFirst(head, '.')
    case NoSeparator => Denied
    case Parts(recordId, requesterId) =>
      if recordId != record.recordId then Denied
      else
        match ParseInt(expText)
        case NotAnInt => Denied
        case Int(exp) =>
          if now > exp as real then Denied
          else if !Ascii(sig) then TypeError
          else if Sign(mac, secret, record, requesterId, exp) != sig then Denied
          else Accepted(requesterId)
  }

  // ---- Round trip ----------------------------------------------------------------------------

  lemma IntTextPlain(n: int)
    ensures forall i :: 0 <= i < |IntText(n)| ==> IsDigit(IntText(n)[i]) || IntText(n)[i] == '-'
  {
  }

  /** How a token of four parts is taken apart. */
  lemma TokenParts(recordId: string, requesterId: string, expText: string, sig: string)
    requires '.' !in expText && '.' !in sig
    ensures var head := recordId + "." + requesterId;
            var token := head + "." + expText + "." + sig;
            SplitLast(token, '.') == Parts(head + "." + expText, sig)
            && SplitLast(head + "." + expText, '.') == Parts(head, expText)
  {
    var head := recordId + "." + requesterId;
    assert head + "." + expText + "." + sig == (head + "." + expText) + ['.'] + sig;
    SplitLastIs(head + "." + expText, sig, '.');
    assert head + "." + expText == head + ['.'] + expText;
    SplitLastIs(head, expText, '.');
  }

  /** A dot in the record id shifts where the head is split. */
  lemma HeadParts(recordId: string, requesterId: string)
    ensures '.' !in recordId ==> SplitFirst(recordId + "." + requesterId, '.') == Parts(recordId, requesterId)
    ensures '.' in recordId ==>
              match SplitFirst(recordId + "." + requesterId, '.')
              case Parts(first, _) => first != recordId
              case NoSeparator => true
  {
    if '.' !in recordId {
      SplitFirstIs(recordId, requesterId, '.');
      assert recordId + "." + requesterId == recordId + ['.'] + requesterId;
    } else {
      SplitFirstFinds(recordId + "." + requesterId, '.');
    }
  }

  lemma SignaturePlain(mac: Mac, secret: string, record: Record, requesterId: string, exp: int)
    requires HexDigests(mac)
    ensures Ascii(Sign(mac, secret, record, requesterId, exp)) && '.' !in Sign(mac, secret, record, requesterId, exp)
  {
    var sig := Sign(mac, secret, record, requesterId, exp);
    assert forall i :: 0 <= i < |sig| ==> IsHex(sig[i]);
  }

  lemma {:induction false} SplitLastFinds(s: string, c: char)
    ensures match SplitLast(s, c)
            case Parts(a, b) => s == a + [c] + b && c !in b
            case NoSeparator => c !in s
  {
    if s != "" && s[|s| - 1] != c {
      SplitLastFinds(s[..|s| - 1], c);
      assert s == s[..|s| - 1] + [s[|s| - 1]];
    }
  }

  /** The token's text: record id, requester and expiry, and the signature of these and the payload hash. */
  predicate Presents(mac: Mac, secret: string, token: string, record: Record, requesterId: string, expText: string,
                     exp: int)
  {
    && '.' !in expText && ParseInt(expText) == Int(exp)
    && token == record.recordId + "." + requesterId + "." + expText + "."
                + mac(secret, record.recordId + ":" + record.payloadHash + ":" + requesterId + ":" + IntText(exp))
  }

  lemma PresentsAccepted(mac: Mac, secret: string, token: string, record: Record, now: real, requesterId: string,
                         expText: string, exp: int)
    requires HexDigests(mac) && Presents(mac, secret, token, record, requesterId, expText, exp)
    requires secret != "" && '.' !in record.recordId
    ensures VerifyApprovalToken(mac, secret, token, record, now)
         == if now <= exp as real then Accepted(requesterId) else Denied
  {
    hide SplitLast;
    hide SplitFirst;
    hide ParseInt;
    hide IntText;
    var sig := Sign(mac, secret, record, requesterId, exp);
    SignaturePlain(mac, secret, record, requesterId, exp);
    var head := record.recordId + "." + requesterId;
    assert token == head + "." + expText + "." + sig;
    hide Sign;
    hide Presents;
    hide Ascii;
    TokenParts(record.recordId, requesterId, expText, sig);
    HeadParts(record.recordId, requesterId);
  }

  lemma AcceptedPresents(mac: Mac, secret: string, token: string, record: Record, now: real) returns (exp: int)
    requires VerifyApprovalToken(mac, secret, token, record, now).Accepted?
    ensures secret != "" && '.' !in record.recordId && now <= exp as real
    ensures exists expText ::
              Presents(mac, secret, token, record, VerifyApprovalToken(mac, secret, token, record, now).requesterId,
                       expText, exp)
  {
    hide SplitLast;
    hide SplitFirst;
    hide ParseInt;
    hide IntText;
    SplitLastFinds(token, '.');
    var front, sig := SplitLast(token, '.').before, SplitLast(token, '.').after;
    SplitLastFinds(front, '.');
    var head, expText := SplitLast(front, '.').before, SplitLast(front, '.').after;
    SplitFirstFinds(head, '.');
    exp := ParseInt(expText).value;
    assert Presents(mac, secret, token, record, SplitFirst(head, '.').after, expText, exp);
  }

  /** A token is accepted exactly when there is a secret, the record id has no dot, and the token is of that
      text for the requester returned, with an expiry that has not passed. */
  lemma AcceptedIff(mac: Mac, secret: string, token: string, record: Record, now: real, requesterId: string)
    requires HexDigests(mac)
    ensures VerifyApprovalToken(mac, secret, token, record, now) == Accepted(requesterId)
       <==> && secret != "" && '.' !in record.recordId
            && exists expText, exp ::
                 Presents(mac, secret, token, record, requesterId, expText, exp) && now <= exp as real
  {
    hide VerifyApprovalToken;
    hide Presents;
    hide HexDigests;
    if VerifyApprovalToken(mac, secret, token, record, now) == Accepted(requesterId) {
      var exp := AcceptedPresents(mac, secret, token, record, now);
    }
    if secret != "" && '.' !in record.recordId {
      forall expText, exp | Presents(mac, secret, token, record, requesterId, expText, exp) && now <= exp as real
        ensures VerifyApprovalToken(mac, secret, token, record, now) == Accepted(requesterId)
      {
        PresentsAccepted(mac, secret, token, record, now, requesterId, expText, exp);
      }
    }
  }

  /** Comparing signatures raises exactly for an unexpired token of the record whose signature is not ASCII. */
  lemma RaisesIff(mac: Mac, secret: string, token: string, record: Record, now: real)
    ensures VerifyApprovalToken(mac, secret, token, record, now) == TypeError
       <==> && secret != "" && '.' !in record.recordId
            && exists requesterId, expText, exp, sig ::
                 && token == record.recordId + "." + requesterId + "." + expText + "." + sig
                 && '.' !in expText && '.' !in sig && ParseInt(expText) == Int(exp) && now <= exp as real
                 && (exists i :: 0 <= i < |sig| && sig[i] as int >= 128)
  {
    hide SplitLast;
    hide SplitFirst;
    hide ParseInt;
    hide Sign;
    if VerifyApprovalToken(mac, secret, token, record, now) == TypeError {
      SplitLastFinds(token, '.');
      var front, sig := SplitLast(token, '.').before, SplitLast(token, '.').after;
      SplitLastFinds(front, '.');
      var head, expText := SplitLast(front, '.').before, SplitLast(front, '.').after;
      SplitFirstFinds(head, '.');
      var requesterId, exp := SplitFirst(head, '.').after, ParseInt(expText).value;
      assert token == record.recordId + "." + requesterId + "." + expText + "." + sig;
      var i :| 0 <= i < |sig| && sig[i] >= '\U{80}';
      assert sig[i] as int >= 128;
    }
    if secret != "" && '.' !in record.recordId {
      forall requesterId, expText, exp, sig |
        && token == record.recordId + "." + requesterId + "." + expText + "." + sig
        && '.' !in expText && '.' !in sig && ParseInt(expText) == Int(exp) && now <= exp as real
        && (exists i :: 0 <= i < |sig| && sig[i] as int >= 128)
        ensures VerifyApprovalToken(mac, secret, token, record, now) == TypeError
      {
        TokenParts(record.recordId, requesterId, expText, sig);
        HeadParts(record.recordId, requesterId);
        assert token == (record.recordId + "." + requesterId) + "." + expText + "." + sig;
      }
    }
  }

  /** An issued token presents its requester, and expires its lifetime after the second it was issued in. */
  lemma IssuedPresents(mac: Mac, secret: string, record: Record, requesterId: string, ttl: int, at: real)
    requires at >= 0.0
    ensures Presents(mac, secret, IssueApprovalToken(mac, secret, record, requesterId, ttl, at), record, requesterId,
                     IntText(at.Floor + ttl), at.Floor + ttl)
  {
    hide IntText;
    hide ParseInt;
    var exp := at.Floor + ttl;
    IntTextPlain(exp);
    IntRoundTrip(exp);
  }

  /** For every requester id, also one with dots and colons in it, a token verifies against its own record
      exactly when there is a secret, the record id has no dot, and its lifetime, counted from the second it was
      issued in, has not passed. */
  lemma RoundTripIff(mac: Mac, secret: string, record: Record, requesterId: string, ttl: int, at: real, now: real)
    requires HexDigests(mac) && at >= 0.0
    ensures VerifyApprovalToken(mac, secret, IssueApprovalToken(mac, secret, record, requesterId, ttl, at), record, now)
            == Accepted(requesterId)
       <==> secret != "" && '.' !in record.recordId && now <= at.Floor as real + ttl as real
  {
    hide VerifyApprovalToken;
    hide IssueApprovalToken;
    hide Presents;
    hide HexDigests;
    var token, exp := IssueApprovalToken(mac, secret, record, requesterId, ttl, at), at.Floor + ttl;
    IssuedPresents(mac, secret, record, requesterId, ttl, at);
    if secret != "" && '.' !in record.recordId {
      PresentsAccepted(mac, secret, token, record, now, requesterId, IntText(exp), exp);
    }
    if VerifyApprovalToken(mac, secret, token, record, now) == Accepted(requesterId) {
      var _ := AcceptedPresents(mac, secret, token, record, now);
    }
  }

  /** A token is good for its whole lifetime, up to the second it is cut to, and never after. */
  lemma LivesItsTime(mac: Mac, secret: string, record: Record, requesterId: string, ttl: int, at: real, now: real)
    requires HexDigests(mac) && at >= 0.0 && secret != "" && '.' !in record.recordId
    ensures var token := IssueApprovalToken(mac, secret, record, requesterId, ttl, at);
            var verdict := VerifyApprovalToken(mac, secret, token, record, now);
            && (now <= at - 1.0 + ttl as real ==> verdict == Accepted(requesterId))
            && (now > at + ttl as real ==> verdict != Accepted(requesterId))
  {
    RoundTripIff(mac, secret, record, requesterId, ttl, at, now);
    assert at - 1.0 < at.Floor as real <= at;
    hide VerifyApprovalToken;
    hide IssueApprovalToken;
  }

  /** The expiry a token states is the second it was issued in and its lifetime. */
  lemma IssuedExpiry(mac: Mac, secret: string, record: Record, requesterId: string, ttl: int, at: real)
    requires HexDigests(mac) && at >= 0.0
    ensures TokenExpiry(IssueApprovalToken(mac, secret, record, requesterId, ttl, at)) == Int(at.Floor + ttl)
  {
    hide IntText;
    hide ParseInt;
    hide SplitLast;
    hide IssueApprovalToken;
    var exp := at.Floor + ttl;
    IssuedPresents(mac, secret, record, requesterId, ttl, at);
    var sig := Sign(mac, secret, record, requesterId, exp);
    SignaturePlain(mac, secret, record, requesterId, exp);
    TokenParts(record.recordId, requesterId, IntText(exp), sig);
    hide HexDigests;
    hide Sign;
  }

  // ---- Soundness -----------------------------------------------------------------------------

  lemma {:induction false} ColonSplits(a: string, b: string, x: string, y: string)
    requires ':' !in a && ':' !in x && a + ":" + b == x + ":" + y
    ensures a == x && b == y
  {
    SplitFirstIs(a, b, ':');
    SplitFirstIs(x, y, ':');
    assert a + ":" + b == a + [':'] + b && x + ":" + y == x + [':'] + y;
  }

  lemma LastColonSplits(a: string, b: string, x: string, y: string)
    requires ':' !in b && ':' !in y && a + ":" + b == x + ":" + y
    ensures a == x && b == y
  {
    SplitLastIs(a, b, ':');
    SplitLastIs(x, y, ':');
    assert a + ":" + b == a + [':'] + b && x + ":" + y == x + [':'] + y;
  }

  lemma Nested(a: string, b: string, q: string, e: string)
    ensures a + ":" + b + ":" + q + ":" + e == a + ":" + (b + ":" + (q + ":" + e))
  {
  }

  /** What a token vouches for. */
  datatype Grant = Grant(recordId: string, payloadHash: string, requesterId: string, exp: int)

  function Message(g: Grant): string {
    SigningString(g.recordId, g.payloadHash, g.requesterId, g.exp)
  }

  /** Colons join the fields, and a requester id may hold any: with none in the record id and the hash, the
      signed string still determines all four fields. */
  lemma MessageUnique(g: Grant, h: Grant)
    requires ':' !in g.recordId && ':' !in g.payloadHash && ':' !in h.recordId && ':' !in h.payloadHash
    requires Message(g) == Message(h)
    ensures g == h
  {
    var x, y := g.requesterId + ":" + IntText(g.exp), h.requesterId + ":" + IntText(h.exp);
    Nested(g.recordId, g.payloadHash, g.requesterId, IntText(g.exp));
    Nested(h.recordId, h.payloadHash, h.requesterId, IntText(h.exp));
    ColonSplits(g.recordId, g.payloadHash + ":" + x, h.recordId, h.payloadHash + ":" + y);
    ColonSplits(g.payloadHash, x, h.payloadHash, y);
    IntTextPlain(g.exp);
    IntTextPlain(h.exp);
    LastColonSplits(g.requesterId, IntText(g.exp), h.requesterId, IntText(h.exp));
    IntRoundTrip(g.exp);
    IntRoundTrip(h.exp);
  }

  /** A colon in a record id can be read as the one before the hash. */
  lemma ColonsCollide(a: string, b: string, c: string, requesterId: string, exp: int)
    ensures Message(Grant(a + ":" + b, c, requesterId, exp)) == Message(Grant(a, b + ":" + c, requesterId, exp))
    ensures Grant(a + ":" + b, c, requesterId, exp) != Grant(a, b + ":" + c, requesterId, exp)
  {
    assert |a + ":" + b| != |a|;
  }

  /** An ideal MAC: a signature that checks out under the secret was made for one of the grants. */
  ghost predicate Unforged(mac: Mac, secret: string, grants: set<Grant>, sig: string) {
    forall message :: mac(secret, message) == sig ==> exists g :: g in grants && Message(g) == message
  }

  /** The expiry written in a token, between its last two dots. */
  function TokenExpiry(token: string): Parsed {
    match SplitLast(token, '.')
    case NoSeparator => NotAnInt
    case Parts(front, _) =>
      match SplitLast(front, '.')
      case NoSeparator => NotAnInt
      case Parts(_, expText) => ParseInt(expText)
  }

  /** Acceptance, taken apart. */
  lemma AcceptedParts(mac: Mac, secret: string, token: string, record: Record, now: real)
    returns (exp: int, sig: string)
    requires VerifyApprovalToken(mac, secret, token, record, now).Accepted?
    ensures var requesterId := VerifyApprovalToken(mac, secret, token, record, now).requesterId;
            && sig == Sign(mac, secret, record, requesterId, exp)
            && SplitLast(token, '.').Parts? && sig == SplitLast(token, '.').after
            && secret != "" && now <= exp as real && TokenExpiry(token) == Int(exp)
  {
    sig := SplitLast(token, '.').after;
    exp := ParseInt(SplitLast(SplitLast(token, '.').before, '.').after).value;
  }

  /** Under an ideal MAC, acceptance means a token was issued for exactly this record and payload hash, to
      the requester returned, with the expiry the token states, which has not passed. */
  lemma AcceptedWasIssued(mac: Mac, secret: string, token: string, record: Record, now: real, grants: set<Grant>)
    requires VerifyApprovalToken(mac, secret, token, record, now).Accepted?
    requires ':' !in record.recordId && ':' !in record.payloadHash
    requires forall g :: g in grants ==> ':' !in g.recordId && ':' !in g.payloadHash
    requires SplitLast(token, '.').Parts? ==> Unforged(mac, secret, grants, SplitLast(token, '.').after)
    ensures exists g :: g in grants && g.recordId == record.recordId && g.payloadHash == record.payloadHash
                     && g.requesterId == VerifyApprovalToken(mac, secret, token, record, now).requesterId
                     && TokenExpiry(token) == Int(g.exp) && now <= g.exp as real
  {
    var requesterId := VerifyApprovalToken(mac, secret, token, record, now).requesterId;
    var exp, sig := AcceptedParts(mac, secret, token, record, now);
    hide VerifyApprovalToken;
    hide TokenExpiry;
    var claim := Grant(record.recordId, record.payloadHash, requesterId, exp);
    assert mac(secret, Message(claim)) == sig;
    var g :| g in grants && Message(g) == Message(claim);
    MessageUnique(g, claim);
  }
}
