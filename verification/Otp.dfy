/** apps/accounts/otp/providers.py: the one-time code challenge of a mobile number. Times are microseconds. */
module Otp {
  import opened Tables

  const SECOND: int := 1_000_000
  const RESEND_SECONDS: nat := 60
  const MAX_ATTEMPTS: nat := 5

  /** `code` stands for `code_hash`; None is the empty hash. */
  datatype Challenge = Challenge(
    code: Option<string>,
    expiresAt: Option<int>,
    sentAt: Option<int>,
    attempts: nat,
    consumedAt: Option<int>
  )

  function Blank(): Challenge { Challenge(None, None, None, 0, None) }

  datatype SendReply = Throttled | DeliveryFailed | CodeSent
  datatype VerifyReply = NotCompared | Wrong | Valid

  predicate TooSoon(c: Challenge, now: int) {
    c.sentAt.Some? && now - c.sentAt.value < RESEND_SECONDS * SECOND
  }

  /** `send_otp`'s transaction; a throttled or undelivered send leaves no trace, not even a new row. */
  function AfterSend(row: Option<Challenge>, now: int, code: string, expiryMinutes: int,
                     delivered: bool): (Option<Challenge>, SendReply) {
    var c := if row.Some? then row.value else Blank();
    if TooSoon(c, now) then (row, Throttled)
    else if !delivered then (row, DeliveryFailed)
    else (Some(Challenge(Some(code), Some(now + expiryMinutes * 60 * SECOND), Some(now), 0, None)), CodeSent)
  }

  predicate Compares(row: Option<Challenge>, now: int) {
    && row.Some?
    && row.value.expiresAt.Some? && row.value.expiresAt.value > now
    && row.value.consumedAt.None?
    && row.value.attempts < MAX_ATTEMPTS
  }

  /** `verify_otp`'s transaction; it commits before a wrong code is reported. */
  function AfterVerify(row: Option<Challenge>, now: int, otp: string): (Option<Challenge>, VerifyReply) {
    if !Compares(row, now) then (row, NotCompared) else
    var c := row.value.(attempts := row.value.attempts + 1);
    if c.code == Some(otp) then (Some(c.(consumedAt := Some(now), code := None)), Valid)
    else (Some(c), Wrong)
  }

  // ----- everything that ever happens to one mobile -----

  datatype Sent = Sent(at: int, code: string, expiresAt: int)

  /** One comparison: when, with which send's code, and whether it matched. */
  datatype Comparison = Comparison(at: int, send: int, otp: string, valid: bool)

  datatype Log = Log(now: int, row: Option<Challenge>, sends: seq<Sent>, comparisons: seq<Comparison>)

  datatype Move =
    | Wait(microseconds: nat)
    | RequestCode(code: string, expiryMinutes: int, delivered: bool)
    | TryCode(otp: string)

  function Play(l: Log, m: Move): Log {
    match m
    case Wait(d) => l.(now := l.now + d)
    case RequestCode(code, expiryMinutes, delivered) =>
      var (row, reply) := AfterSend(l.row, l.now, code, expiryMinutes, delivered);
      if reply.CodeSent? then l.(row := row, sends := l.sends + [Sent(l.now, code, row.value.expiresAt.value)])
      else l.(row := row)
    case TryCode(otp) =>
      var (row, reply) := AfterVerify(l.row, l.now, otp);
      if reply.NotCompared? then l.(row := row)
      else l.(row := row, comparisons := l.comparisons + [Comparison(l.now, |l.sends| - 1, otp, reply.Valid?)])
  }

  function PlayAll(l: Log, moves: seq<Move>): Log {
    if |moves| == 0 then l else Play(PlayAll(l, moves[..|moves| - 1]), moves[|moves| - 1])
  }

  function NewLog(now: int): Log { Log(now, None, [], []) }

  // ----- the challenge mirrors the log -----

  ghost predicate Matched(l: Log, send: int) {
    exists k :: 0 <= k < |l.comparisons| && l.comparisons[k].send == send && l.comparisons[k].valid
  }

  /** The row holds the last send's code until that code has matched once, and at most five attempts. */
  ghost predicate Mirrors(l: Log) {
    if |l.sends| == 0 then l.row.None? && l.comparisons == []
    else
      var last := |l.sends| - 1;
      && l.row.Some? && l.row.value.attempts <= MAX_ATTEMPTS
      && l.row.value.sentAt == Some(l.sends[last].at) && l.sends[last].at <= l.now
      && l.row.value.expiresAt == Some(l.sends[last].expiresAt)
      && (l.row.value.consumedAt.Some? <==> Matched(l, last))
      && l.row.value.code == (if Matched(l, last) then None else Some(l.sends[last].code))
  }

  /** A match names a send that was made, its very code, in time, and is the only match of that send. */
  ghost predicate MatchesAreHonest(l: Log) {
    && (forall k :: 0 <= k < |l.comparisons| ==> 0 <= l.comparisons[k].send < |l.sends|)
    && (forall k :: 0 <= k < |l.comparisons| && l.comparisons[k].valid ==>
          l.comparisons[k].otp == l.sends[l.comparisons[k].send].code
          && l.comparisons[k].at < l.sends[l.comparisons[k].send].expiresAt)
    && (forall j, k :: 0 <= j < k < |l.comparisons| && l.comparisons[j].valid && l.comparisons[k].valid ==>
          l.comparisons[j].send != l.comparisons[k].send)
  }

  ghost predicate SendsAreSpaced(l: Log) {
    forall i :: 0 <= i < |l.sends| - 1 ==> l.sends[i + 1].at - l.sends[i].at >= RESEND_SECONDS * SECOND
  }

  ghost predicate Kept(l: Log) { Mirrors(l) && MatchesAreHonest(l) && SendsAreSpaced(l) }

  lemma SendKeeps(l: Log, code: string, expiryMinutes: int, delivered: bool)
    requires Kept(l)
    ensures Kept(Play(l, RequestCode(code, expiryMinutes, delivered)))
  {
    var l' := Play(l, RequestCode(code, expiryMinutes, delivered));
    if l'.sends != l.sends {
      assert !Matched(l', |l.sends|);
    }
  }

  lemma TryKeeps(l: Log, otp: string)
    requires Kept(l)
    ensures Kept(Play(l, TryCode(otp)))
  {
    var l' := Play(l, TryCode(otp));
    if l'.comparisons != l.comparisons {
      var last, next := |l.sends| - 1, |l.comparisons|;
      assert !Matched(l, last);
      forall j | 0 <= j < next && l.comparisons[j].valid ensures l.comparisons[j].send != last {}
      if l'.comparisons[next].valid {
        assert Matched(l', last);
      }
    }
  }

  /**
   * In every run: at most five attempts stand on the row, each sent code matches at most once, with that code and
   * before it expires, and sends are at least sixty seconds apart.
   */
  lemma {:induction false} ChallengeIsKept(now: int, moves: seq<Move>)
    ensures Kept(PlayAll(NewLog(now), moves))
  {
    if |moves| > 0 {
      var l, m := PlayAll(NewLog(now), moves[..|moves| - 1]), moves[|moves| - 1];
      ChallengeIsKept(now, moves[..|moves| - 1]);
      match m
      case Wait(_) =>
        assert forall send :: Matched(Play(l, m), send) <==> Matched(l, send);
      case RequestCode(code, expiryMinutes, delivered) => SendKeeps(l, code, expiryMinutes, delivered);
      case TryCode(otp) => TryKeeps(l, otp);
    }
  }

  // ----- how often codes can be guessed -----

  function SentWithin(a: int, b: int): Sent -> int { (s: Sent) => if a <= s.at <= b then 1 else 0 }

  function ComparedWithin(a: int, b: int): Comparison -> int { (c: Comparison) => if a <= c.at <= b then 1 else 0 }

  function SendCount(l: Log, a: int, b: int): int { Sum(l.sends, SentWithin(a, b)) }

  function ComparisonCount(l: Log, a: int, b: int): int { Sum(l.comparisons, ComparedWithin(a, b)) }

  function Attempts(l: Log): nat { if l.row.Some? then l.row.value.attempts else 0 }

  /** Each send buys five comparisons, and the row counts those already spent on the last one. */
  ghost predicate Counted(l: Log, a: int, b: int) {
    && (l.now < a ==> ComparisonCount(l, a, b) == 0)
    && ComparisonCount(l, a, b) <= MAX_ATTEMPTS * SendCount(l, a, b)
        + (if l.now <= b then Attempts(l) else MAX_ATTEMPTS)
  }

  /** The sends of a window, sixty seconds apart, reach from its start to the last send, and never past its end. */
  ghost predicate Spread(l: Log, a: int, b: int) {
    SendCount(l, a, b) > 0 ==>
      && |l.sends| > 0
      && a + RESEND_SECONDS * SECOND * (SendCount(l, a, b) - 1) <= b
      && (l.now <= b ==> a + RESEND_SECONDS * SECOND * (SendCount(l, a, b) - 1) <= l.sends[|l.sends| - 1].at)
  }

  /** What a send does to the log. */
  lemma SendLogged(l: Log, code: string, expiryMinutes: int, delivered: bool)
    requires Kept(l)
    ensures var l' := Play(l, RequestCode(code, expiryMinutes, delivered));
            && l'.now == l.now && l'.comparisons == l.comparisons
            && (l' == l || (Attempts(l') == 0 && |l'.sends| == |l.sends| + 1 && l'.sends[..|l.sends|] == l.sends
                            && l'.sends[|l.sends|].at == l.now
                            && (|l.sends| > 0 ==> l.now - l.sends[|l.sends| - 1].at >= RESEND_SECONDS * SECOND)))
  {
  }

  lemma SendCountAfter(l: Log, l': Log, a: int, b: int)
    requires |l'.sends| == |l.sends| + 1 && l'.sends[..|l.sends|] == l.sends && l'.sends[|l.sends|].at == l.now
    ensures SendCount(l', a, b) == SendCount(l, a, b) + (if a <= l.now <= b then 1 else 0)
    ensures SendCount(l, a, b) >= 0
  {
    SumNonNegative(l.sends, SentWithin(a, b));
    SumAppend(l.sends, l'.sends[|l.sends|], SentWithin(a, b));
    assert l'.sends == l.sends + [l'.sends[|l.sends|]];
  }

  lemma SendCounted(l: Log, code: string, expiryMinutes: int, delivered: bool, a: int, b: int)
    requires Kept(l) && Counted(l, a, b)
    ensures Counted(Play(l, RequestCode(code, expiryMinutes, delivered)), a, b)
  {
    var l' := Play(l, RequestCode(code, expiryMinutes, delivered));
    SendLogged(l, code, expiryMinutes, delivered);
    if l' != l {
      SendCountAfter(l, l', a, b);
      assert Attempts(l) <= MAX_ATTEMPTS;
    }
  }

  lemma SendSpread(l: Log, code: string, expiryMinutes: int, delivered: bool, a: int, b: int)
    requires Kept(l) && Spread(l, a, b)
    ensures Spread(Play(l, RequestCode(code, expiryMinutes, delivered)), a, b)
  {
    var l' := Play(l, RequestCode(code, expiryMinutes, delivered));
    SendLogged(l, code, expiryMinutes, delivered);
    if l' != l {
      SendCountAfter(l, l', a, b);
    }
  }

  /** What a try does to the log. */
  lemma TryLogged(l: Log, otp: string)
    requires Kept(l)
    ensures var l' := Play(l, TryCode(otp));
            && l'.now == l.now && l'.sends == l.sends
            && (l' == l || (Attempts(l') == Attempts(l) + 1 && |l'.comparisons| == |l.comparisons| + 1
                            && l'.comparisons[..|l.comparisons|] == l.comparisons
                            && l'.comparisons[|l.comparisons|].at == l.now))
  {
  }

  lemma TryCounted(l: Log, otp: string, a: int, b: int)
    requires Kept(l) && Counted(l, a, b)
    ensures Counted(Play(l, TryCode(otp)), a, b)
  {
    var l' := Play(l, TryCode(otp));
    TryLogged(l, otp);
    if l' != l {
      SumAppend(l.comparisons, l'.comparisons[|l.comparisons|], ComparedWithin(a, b));
      assert l'.comparisons == l.comparisons + [l'.comparisons[|l.comparisons|]];
    }
  }

  /** A log with no more sends and no earlier clock keeps its spread. */
  lemma SpreadKept(l: Log, l': Log, a: int, b: int)
    requires Spread(l, a, b) && l'.sends == l.sends && l'.now >= l.now
    ensures Spread(l', a, b)
  {
  }

  lemma WaitCounted(l: Log, d: nat, a: int, b: int)
    requires Kept(l) && Counted(l, a, b)
    ensures Counted(Play(l, Wait(d)), a, b)
  {
    assert Attempts(l) <= MAX_ATTEMPTS;
  }

  lemma {:induction false} AlwaysBounded(now: int, moves: seq<Move>, a: int, b: int)
    requires a <= b
    ensures Counted(PlayAll(NewLog(now), moves), a, b) && Spread(PlayAll(NewLog(now), moves), a, b)
  {
    if |moves| > 0 {
      var l, m := PlayAll(NewLog(now), moves[..|moves| - 1]), moves[|moves| - 1];
      AlwaysBounded(now, moves[..|moves| - 1], a, b);
      ChallengeIsKept(now, moves[..|moves| - 1]);
      match m
      case Wait(d) =>
        WaitCounted(l, d, a, b);
        SpreadKept(l, Play(l, m), a, b);
      case RequestCode(code, expiryMinutes, delivered) =>
        SendCounted(l, code, expiryMinutes, delivered, a, b);
        SendSpread(l, code, expiryMinutes, delivered, a, b);
      case TryCode(otp) =>
        TryCounted(l, otp, a, b);
        TryLogged(l, otp);
        SpreadKept(l, Play(l, m), a, b);
    }
  }

  /** A code is sent exactly if a minute has passed since the last and it is delivered; it starts the row afresh. */
  lemma SendEffect(row: Option<Challenge>, now: int, code: string, expiryMinutes: int, delivered: bool)
    ensures var (row', reply) := AfterSend(row, now, code, expiryMinutes, delivered);
            var soon := row.Some? && row.value.sentAt.Some? && row.value.sentAt.value + 60_000_000 > now;
            && (reply.Throttled? <==> soon) && (reply.CodeSent? <==> !soon && delivered)
            && row' == if reply.CodeSent? then
                         Some(Challenge(Some(code), Some(now + expiryMinutes * 60_000_000), Some(now), 0, None))
                       else row
  {
    assert expiryMinutes * 60 * SECOND == expiryMinutes * 60_000_000;
  }

  /** A try is counted exactly on a fresh, unconsumed code with fewer than five tries, and matches it or not. */
  lemma TryEffect(row: Option<Challenge>, now: int, otp: string)
    ensures var (row', reply) := AfterVerify(row, now, otp);
            var open := row.Some? && row.value.expiresAt.Some? && now < row.value.expiresAt.value
                        && row.value.consumedAt.None? && row.value.attempts < 5;
            && (reply.NotCompared? <==> !open)
            && (reply.Valid? <==> open && row.value.code == Some(otp))
            && row' == if !open then row
                       else if reply.Valid? then
                         Some(row.value.(attempts := row.value.attempts + 1, consumedAt := Some(now), code := None))
                       else Some(row.value.(attempts := row.value.attempts + 1))
  {
  }

  /** A mobile is 91 and ten digits, the first of them six or more. */
  lemma ValidMobileIff(mobile: string)
    ensures ValidMobile(mobile) <==>
              && |mobile| == 12 && mobile[0] == '9' && mobile[1] == '1' && mobile[2] >= '6'
              && forall k :: 0 <= k < 12 ==> '0' <= mobile[k] <= '9'
  {
    if |mobile| == 12 {
      assert mobile[..2] == "91" <==> mobile[0] == '9' && mobile[1] == '1' by {
        assert mobile[..2] == [mobile[0], mobile[1]];
      }
    }
  }

  /** Read off: the row never counts more than five attempts, and sends are a minute apart. */
  lemma LimitsHold(now: int, moves: seq<Move>, i: nat)
    ensures var l := PlayAll(NewLog(now), moves);
            && (l.row.Some? ==> l.row.value.attempts <= 5)
            && (i + 1 < |l.sends| ==> l.sends[i + 1].at - l.sends[i].at >= 60_000_000)
  {
    ChallengeIsKept(now, moves);
  }

  /** Any window of `seconds`, wherever it starts, sees at most 5 * (seconds / 60 + 2) comparisons. */
  lemma GuessesAreFew(now: int, moves: seq<Move>, start: int, seconds: nat)
    ensures ComparisonCount(PlayAll(NewLog(now), moves), start, start + seconds * SECOND)
            <= 5 * (seconds / 60 + 2)
  {
    var end := start + seconds * SECOND;
    AlwaysBounded(now, moves, start, end);
    ChallengeIsKept(now, moves);
    var l := PlayAll(NewLog(now), moves);
    var n := SendCount(l, start, end);
    if n > 0 {
      assert RESEND_SECONDS * (n - 1) <= seconds;
    }
    assert n <= seconds / RESEND_SECONDS + 1;
  }

  // ----- in place -----

  predicate ValidMobile(mobile: string) {
    && |mobile| == 12 && mobile[..2] == "91" && '6' <= mobile[2] <= '9'
    && forall k :: 3 <= k < 12 ==> '0' <= mobile[k] <= '9'
  }

  datatype ProviderReply = InvalidMobile | Answered(reply: SendReply)

  class OtpProvider {
    var challenges: map<string, Challenge>

    constructor ()
      ensures challenges == map[]
    {
      challenges := map[];
    }

    ghost function Row(mobile: string): Option<Challenge>
      reads this
    {
      if mobile in challenges then Some(challenges[mobile]) else None
    }

    method SendOtp(mobile: string, now: int, code: string, expiryMinutes: int,
                   delivered: bool) returns (r: ProviderReply)
      modifies this
      ensures forall m :: m != mobile ==> Row(m) == old(Row(m))
      ensures !ValidMobile(mobile) ==> r.InvalidMobile? && challenges == old(challenges)
      ensures ValidMobile(mobile) ==>
                r.Answered? && (Row(mobile), r.reply)
                    == AfterSend(old(Row(mobile)), now, code, expiryMinutes, delivered)
    {
      if !ValidMobile(mobile) { return InvalidMobile; }
      var before := challenges;
      if mobile !in challenges { challenges := challenges[mobile := Blank()]; }
      var challenge := challenges[mobile];
      if challenge.sentAt.Some? && now - challenge.sentAt.value < RESEND_SECONDS * SECOND {
        challenges := before;
        return Answered(Throttled);
      }
      if !delivered {
        challenges := before;
        return Answered(DeliveryFailed);
      }
      challenge := challenge.(code := Some(code));
      challenge := challenge.(expiresAt := Some(now + expiryMinutes * 60 * SECOND));
      challenge := challenge.(sentAt := Some(now));
      challenge := challenge.(attempts := 0);
      challenge := challenge.(consumedAt := None);
      challenges := challenges[mobile := challenge];
      r := Answered(CodeSent);
    }

    method VerifyOtp(mobile: string, now: int, otp: string) returns (valid: bool)
      modifies this
      ensures forall m :: m != mobile ==> Row(m) == old(Row(m))
      ensures Row(mobile) == AfterVerify(old(Row(mobile)), now, otp).0
      ensures valid <==> AfterVerify(old(Row(mobile)), now, otp).1.Valid?
    {
      valid := false;
      if mobile !in challenges { return; }
      var challenge := challenges[mobile];
      if challenge.expiresAt.Some? && challenge.expiresAt.value > now
         && challenge.consumedAt.None? && challenge.attempts < MAX_ATTEMPTS {
        challenge := challenge.(attempts := challenge.attempts + 1);
        valid := challenge.code == Some(otp);
        if valid {
          challenge := challenge.(consumedAt := Some(now));
          challenge := challenge.(code := None);
        }
        challenges := challenges[mobile := challenge];
      }
    }
  }
}
