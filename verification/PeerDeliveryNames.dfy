/** Delivery ids as the strings that travel: fields joined by colons. Two ids of live sessions
    are the same string only when they are the same id of the same session. */
module PeerDeliveryNames {
  import opened Prelude
  import opened PeerHubTypes

  predicate ColonFree(s: string) {
    ':' !in s
  }

  predicate Fields(fs: seq<string>) {
    |fs| > 0 && forall i :: 0 <= i < |fs| ==> ColonFree(fs[i])
  }

  function Join(fs: seq<string>): string
    requires |fs| > 0
  {
    if |fs| == 1 then fs[0] else fs[0] + ":" + Join(fs[1..])
  }

  lemma JoinColons(fs: seq<string>)
    requires Fields(fs)
    ensures ColonFree(Join(fs)) <==> |fs| == 1
  {
    if |fs| > 1 {
      assert Join(fs)[|fs[0]|] == ':';
    }
  }

  lemma {:induction false} JoinInjective(a: seq<string>, b: seq<string>)
    requires Fields(a) && Fields(b) && Join(a) == Join(b)
    ensures a == b
  {
    JoinColons(a);
    JoinColons(b);
    if |a| > 1 {
      var s := Join(a);
      assert s[..|a[0]|] == a[0] && s[|a[0]|] == ':' && s[|a[0]| + 1..] == Join(a[1..]);
      assert s[..|b[0]|] == b[0] && s[|b[0]|] == ':' && s[|b[0]| + 1..] == Join(b[1..]);
      FirstColon(s, |a[0]|, |b[0]|);
      JoinInjective(a[1..], b[1..]);
      assert a == [a[0]] + a[1..] && b == [b[0]] + b[1..];
    }
  }

  lemma FirstColon(s: string, i: nat, j: nat)
    requires i < |s| && j < |s| && s[i] == ':' && s[j] == ':' && ColonFree(s[..i]) && ColonFree(s[..j])
    ensures i == j
  {
    assert forall k :: 0 <= k < j ==> s[..j][k] == s[k];
    assert forall k :: 0 <= k < i ==> s[..i][k] == s[k];
  }

  // ----- numbers -----

  function Digit(d: nat): (c: char)
    requires d < 10
    ensures c != ':'
  {
    '0' + d as char
  }

  function Decimal(n: nat): (s: string)
    ensures |s| > 0 && ColonFree(s)
  {
    if n < 10 then [Digit(n)] else Decimal(n / 10) + [Digit(n % 10)]
  }

  lemma {:induction false} DecimalInjective(m: nat, n: nat)
    requires Decimal(m) == Decimal(n)
    ensures m == n
  {
    assert Digit(m % 10) == Decimal(m)[|Decimal(m)| - 1] == Digit(n % 10);
    assert (if m < 10 then [] else Decimal(m / 10)) == Decimal(m)[..|Decimal(m)| - 1];
    assert (if n < 10 then [] else Decimal(n / 10)) == Decimal(n)[..|Decimal(n)| - 1];
    if m >= 10 && n >= 10 {
      DecimalInjective(m / 10, n / 10);
    }
  }

  function RoundName(no: nat): (s: string)
    ensures ColonFree(s)
  {
    "r" + Decimal(no)
  }

  lemma RoundNameInjective(m: nat, n: nat)
    requires RoundName(m) == RoundName(n)
    ensures m == n
  {
    assert RoundName(m)[1..] == Decimal(m) && RoundName(n)[1..] == Decimal(n);
    DecimalInjective(m, n);
  }

  // ----- names of the enumerations -----

  function SideName(s: Side): (r: string)
    ensures ColonFree(r)
  {
    if s.Source? then "source" else "target"
  }

  function RoleName(r: SignalRole): string {
    if r.Initiator? then "initiator" else "responder"
  }

  function KindName(k: SignalKind): string {
    match k case Offer => "offer" case Answer => "answer" case Candidate => "candidate"
  }

  function EventName(e: EventKind): string {
    match e
    case ActiveEvent => "active"
    case CompleteEvent => "complete"
    case CancelEvent => "cancel"
    case InterruptEvent => "interrupt"
    case FailEvent => "fail"
  }

  function WhoName(who: Option<Side>): string {
    if who.None? then "coordinator" else SideName(who.value)
  }

  function CauseFields(c: Cause): seq<string> {
    match c
    case ByAuthorize(side) => ["authorize", SideName(side)]
    case ByEvent(event, who, no) => ["event", EventName(event), WhoName(who), RoundName(no)]
    case ByExpiry => ["expired"]
  }

  function SuffixFields(s: Suffix): (fs: seq<string>)
    ensures |fs| > 0
  {
    match s
    case PrepareTo(to) => ["prepare", SideName(to)]
    case RoundPrepareTo(to) => ["round-prepare", SideName(to)]
    case SignalFrom(from, kind, seqNo) => ["signal", RoleName(from), KindName(kind), Decimal(seqNo)]
    case IssueTicketJob => ["issue-ticket"]
    case TicketTo(to) => ["ticket", SideName(to)]
    case UpdateTo(cause, to) => ["update"] + CauseFields(cause) + [SideName(to)]
  }

  function IdFields(sessionId: string, id: DeliveryId): seq<string> {
    ["ps", sessionId, RoundName(id.no)] + SuffixFields(id.suffix)
  }

  /** The string form of a delivery id. */
  function Name(sessionId: string, id: DeliveryId): string {
    Join(IdFields(sessionId, id))
  }

  lemma NamesDiffer()
    ensures forall a: Side, b: Side :: SideName(a) == SideName(b) ==> a == b
    ensures forall a: SignalRole, b: SignalRole :: RoleName(a) == RoleName(b) ==> a == b
    ensures forall a: SignalKind, b: SignalKind :: KindName(a) == KindName(b) ==> a == b
    ensures forall a: Option<Side>, b: Option<Side> :: WhoName(a) == WhoName(b) ==> a == b
  {
  }

  lemma EventNamesDiffer(a: EventKind, b: EventKind)
    requires EventName(a) == EventName(b)
    ensures a == b
  {
    assert EventName(a)[0] == EventName(b)[0] && |EventName(a)| == |EventName(b)|;
  }

  lemma CauseInjective(a: Cause, b: Cause)
    requires CauseFields(a) == CauseFields(b)
    ensures a == b
  {
    NamesDiffer();
    assert |CauseFields(a)| == |CauseFields(b)|;
    if a.ByEvent? {
      assert CauseFields(a)[1] == CauseFields(b)[1] && CauseFields(a)[2] == CauseFields(b)[2] && CauseFields(a)[3] == CauseFields(b)[3];
      EventNamesDiffer(a.event, b.event);
      RoundNameInjective(a.roundNo, b.roundNo);
    } else if a.ByAuthorize? {
      assert CauseFields(a)[1] == CauseFields(b)[1];
    }
  }

  lemma HeadsDiffer(a: Suffix, b: Suffix)
    requires SuffixFields(a)[0] == SuffixFields(b)[0]
    ensures match a
      case PrepareTo(_) => b.PrepareTo?
      case RoundPrepareTo(_) => b.RoundPrepareTo?
      case SignalFrom(_, _, _) => b.SignalFrom?
      case IssueTicketJob => b.IssueTicketJob?
      case TicketTo(_) => b.TicketTo?
      case UpdateTo(_, _) => b.UpdateTo?
  {
    var x, y := SuffixFields(a)[0], SuffixFields(b)[0];
    assert |x| == |y| && x[0] == y[0];
  }

  lemma SuffixInjective(a: Suffix, b: Suffix)
    requires SuffixFields(a) == SuffixFields(b)
    ensures a == b
  {
    var x, y := SuffixFields(a), SuffixFields(b);
    HeadsDiffer(a, b);
    NamesDiffer();
    match a
    case SignalFrom(from, kind, seqNo) =>
      assert x[1] == y[1] && x[2] == y[2] && x[3] == y[3];
      DecimalInjective(seqNo, b.seqNo);
    case UpdateTo(cause, to) =>
      assert x[1..|x| - 1] == CauseFields(cause) && y[1..|y| - 1] == CauseFields(b.cause);
      CauseInjective(cause, b.cause);
      assert x[|x| - 1] == SideName(to) && y[|y| - 1] == SideName(b.to);
    case IssueTicketJob =>
    case _ => assert x[1] == y[1];
  }

  lemma FieldsColonFree(sessionId: string, id: DeliveryId)
    requires ColonFree(sessionId)
    ensures Fields(IdFields(sessionId, id))
  {
    var fs := SuffixFields(id.suffix);
    forall i | 0 <= i < |fs| ensures ColonFree(fs[i]) {
      if id.suffix.UpdateTo? {
        var cs := CauseFields(id.suffix.cause);
        assert forall k :: 0 <= k < |cs| ==> ColonFree(cs[k]);
      }
    }
  }

  /** Session ids are UUIDs, so they hold no colon: equal strings are the same id of the same session. */
  lemma NameInjective(s: string, a: DeliveryId, t: string, b: DeliveryId)
    requires ColonFree(s) && ColonFree(t)
    ensures Name(s, a) == Name(t, b) <==> s == t && a == b
  {
    if Name(s, a) == Name(t, b) {
      var x, y := IdFields(s, a), IdFields(t, b);
      FieldsColonFree(s, a);
      FieldsColonFree(t, b);
      JoinInjective(x, y);
      assert x[1] == y[1] && x[2] == y[2] && x[3..] == y[3..];
      RoundNameInjective(a.no, b.no);
      SuffixInjective(a.suffix, b.suffix);
    }
  }
}
