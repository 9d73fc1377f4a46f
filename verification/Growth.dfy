/** What a step can never undo: a session's end, once decided, is final; histories only grow. */
module Growth {
  import opened Prelude
  import opened Protocol
  import opened Results
  import opened Admission
  import opened Machine
  import opened Invariants

  /** `after` may follow `before`: the winning call of `close` never changes, `close` only moves forward, and
      what it has recorded stays. */
  predicate LifeGrows(before: Life, after: Life) {
    && Rank(before.once) <= Rank(after.once)
    && (!before.once.Fresh? ==> !after.once.Fresh? && after.once.call == before.once.call)
    && (before.once.Done? ==> after == before)
    && (before.closed ==> after.closed)
    && (before.endReason.Some? ==> after.endReason == before.endReason)
    && (before.endedAt.Some? ==> after.endedAt == before.endedAt)
    && before.hangUps <= after.hangUps
    && before.ended <= after.ended
    && (before.state.Closing? ==> !after.state.Active?)
    && (before.state.Closed? ==> after.state.Closed?)
  }

  /** The histories of a connection only grow, and what was entered in the registry stays known as entered. */
  predicate HistoryGrows(c: Conn, d: Conn) {
    && (c.desk.joined ==> d.desk.joined)
    && c.net.received <= d.net.received
    && c.net.wire <= d.net.wire
    && c.q.accepted <= d.q.accepted
    && c.q.pulled <= d.q.pulled
    && c.term.output <= d.term.output
    && c.typed.ops <= d.typed.ops
    && d.depth == c.depth
  }

  predicate Grows(c: Conn, d: Conn) {
    LifeGrows(c.life, d.life) && HistoryGrows(c, d)
  }

  lemma BodyGrows(life: Life, hook: bool, now: nat)
    requires LifeOk(life, hook) && life.once.Running?
    ensures LifeGrows(life, BodyLife(life, hook, now))
  {
  }

  /** The step leaves the fields of `close` alone. */
  predicate OnlyHistory(c: Conn, d: Conn) {
    d.life == c.life && HistoryGrows(c, d)
  }

  lemma EnvGrows(R: Rules, c: Conn, e: EnvAct)
    ensures OnlyHistory(c, EnvStep(c, e))
  {
  }

  lemma HandlerTakeGrows(R: Rules, c: Conn)
    requires c.net.inbox != []
    ensures OnlyHistory(c, HandlerTake(R, c))
  {
  }

  lemma HandlerVerdictGrows(R: Rules, c: Conn, v: Verdict)
    requires c.h.HValidate?
    ensures OnlyHistory(c, HandlerVerdict(R, c, v))
  {
  }

  lemma SayGrows(R: Rules, c: Conn, ok: bool)
    ensures OnlyHistory(c, SayStep(R, c, ok))
  {
  }

  lemma OpenGrows(R: Rules, c: Conn, ok: bool, text: string, full: bool)
    ensures OnlyHistory(c, OpenStep(R, c, ok, text, full))
  {
    hide LifeGrows;
  }

  lemma HandlerEnqueueGrows(R: Rules, c: Conn)
    ensures OnlyHistory(c, HandlerEnqueue(R, c))
  {
  }

  lemma JoinGrows(R: Rules, c: Conn, text: string)
    ensures OnlyHistory(c, JoinStep(R, c, text))
  {
  }

  lemma FlushGrows(R: Rules, c: Conn, ok: bool)
    ensures OnlyHistory(c, FlushStep(R, c, ok))
  {
  }

  lemma HandlerGrows(R: Rules, c: Conn, a: Act, full: bool, now: nat)
    requires Can(R, c, a) && HandlerAct(a)
    ensures OnlyHistory(c, Step(R, c, a, full, now))
  {
    match a {
      case Env(e) => EnvGrows(R, c, e);
      case HTake => HandlerTakeGrows(R, c);
      case HVerdict(v) => HandlerVerdictGrows(R, c, v);
      case HGo(ok, text) => OpenGrows(R, c, ok, text, full);
      case HEnqueue => HandlerEnqueueGrows(R, c);
      case HJoin(text) => JoinGrows(R, c, text);
      case HSay(ok) => SayGrows(R, c, ok);
      case _ =>
    }
  }

  lemma LoopGrows(R: Rules, c: Conn, a: Act, full: bool, now: nat)
    requires Can(R, c, a) && LoopAct(a)
    ensures OnlyHistory(c, Step(R, c, a, full, now))
  {
    hide EnvStep, HandlerTake, HandlerVerdict, OpenStep, JoinStep, SayStep, HandlerEnqueue, PingStep, FlushStep,
      BodyLife, BodyWorld, EnterStep, LifeGrows, EnvCan, SayCan;
  }

  lemma EnterGrows(R: Rules, c: Conn, a: Act, full: bool, now: nat)
    requires Can(R, c, a) && a.Enter? && LifeOk(c.life, c.hook)
    ensures Grows(c, Step(R, c, a, full, now))
  {
  }

  lemma BodyWorldGrows(c: Conn, next: Life)
    requires c.life.once.Running? && LifeGrows(c.life, next)
    ensures Grows(c, BodyWorld(c, next))
  {
  }

  lemma RunActGrows(R: Rules, c: Conn, a: Act, full: bool, now: nat)
    requires Can(R, c, a) && CloseAct(a) && !a.Enter? && !a.Body?
    ensures OnlyHistory(c, Step(R, c, a, full, now))
  {
    hide EnvStep, HandlerTake, HandlerVerdict, OpenStep, JoinStep, SayStep, HandlerEnqueue, ReaderTake, ReaderStep,
      WriterPull, WriterStep, OutputTake, OutputEnqueue, BodyLife, BodyWorld, EnterStep, LifeGrows;
    if a.XSay? { FlushGrows(R, c, a.ok); }
  }

  lemma StepGrows(R: Rules, c: Conn, a: Act, full: bool, now: nat)
    requires Can(R, c, a) && LifeOk(c.life, c.hook)
    ensures Grows(c, Step(R, c, a, full, now))
  {
    if HandlerAct(a) { HandlerGrows(R, c, a, full, now); }
    else if LoopAct(a) { LoopGrows(R, c, a, full, now); }
    else if a.Enter? { EnterGrows(R, c, a, full, now); }
    else if a.Body? {
      BodyGrows(c.life, c.hook, now);
      BodyWorldGrows(c, BodyLife(c.life, c.hook, now));
    } else { RunActGrows(R, c, a, full, now); }
  }

  lemma OpenEnters(R: Rules, c: Conn, ok: bool, text: string, full: bool)
    ensures OpenStep(R, c, ok, text, full).desk.entry ==> c.desk.entry || (c.h.HInsert? && !full)
  {
  }

  lemma OthersEnterNothing(R: Rules, c: Conn, a: Act, full: bool, now: nat)
    requires Can(R, c, a) && !a.HGo?
    ensures Step(R, c, a, full, now).desk.entry ==> c.desk.entry
  {
    hide BodyLife, OpenStep, ReaderCan, EnvCan, SayCan;
  }

  /** Only the locked region of `Start` enters a session, and only when there is room. */
  lemma OnlyStartEnters(R: Rules, c: Conn, a: Act, full: bool, now: nat)
    requires Can(R, c, a)
    ensures Step(R, c, a, full, now).desk.entry ==> c.desk.entry || (c.h.HInsert? && !full)
  {
    hide Step;
    if a.HGo? { OpenEnters(R, c, a.ok, a.text, full); OpenIsOpenStep(R, c, a, full, now); }
    else { OthersEnterNothing(R, c, a, full, now); }
  }

  lemma OpenIsOpenStep(R: Rules, c: Conn, a: Act, full: bool, now: nat)
    requires Can(R, c, a) && a.HGo?
    ensures Step(R, c, a, full, now) == OpenStep(R, c, a.ok, a.text, full)
  {
    hide OpenStep;
  }

  lemma GrowsIsTransitive(b: Conn, c: Conn, d: Conn)
    requires Grows(b, c) && Grows(c, d)
    ensures Grows(b, d)
  {
  }
}
