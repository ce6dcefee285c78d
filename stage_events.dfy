/** The events a streaming stage yields (`start`, one `progress` per token,
    `done` with the concatenated tokens), the events the RAG pipeline adds
    around them, and the loops that produce and forward them. */
module StageEvents {
  import opened Wrappers
  import opened PyText
  import opened RagRun

  /** The three generation stages. */
  datatype Stage = CodeStage | IrStage | JsonStage {
    /** The prefix of the stage's `stage` labels. */
    function Name(): string {
      match this
      case CodeStage => "code"
      case IrStage => "ir"
      case JsonStage => "json"
    }
  }

  /** One yielded dictionary:
      `{"stage": "<s>_start"}`, `{"stage": "<s>_progress", "token": t}`,
      `{"stage": "<s>_done", <payload key>: text}` (the key is `code`, `ir`
      or `output`), `{"stage": "rag_stage_<n>_done", "context": ctx}`, and the
      abort notice `{"status": "abort", "reason": .., "score": ..}`. */
  datatype Event =
    | StageStart(stage: Stage)
    | StageProgress(stage: Stage, token: string)
    | StageDone(stage: Stage, payload: string)
    | RagDone(step: int, context: seq<Dict>)
    | Abort(reason: string, score: real)

  /** `chunk.get("stage")`. */
  function Label(e: Event): Option<string> {
    match e
    case StageStart(s) => Some(s.Name() + "_start")
    case StageProgress(s, _) => Some(s.Name() + "_progress")
    case StageDone(s, _) => Some(s.Name() + "_done")
    case RagDone(n, _) => Some("rag_stage_" + IntToString(n) + "_done")
    case Abort(_, _) => None
  }

  function DoneLabel(s: Stage): string {
    s.Name() + "_done"
  }

  /** Only the `done` event of a stage carries that stage's `done` label, so
      reading the payload key of an event with that label never fails. */
  lemma DoneLabelOnlyOnDone(e: Event, s: Stage)
    ensures Label(e) == Some(DoneLabel(s)) <==> e.StageDone? && e.stage == s
  {
    var d := DoneLabel(s);
    match e
    case StageStart(t) =>
      assert s.Name() + "_done" != t.Name() + "_start" by {
        if s == t {
          assert (s.Name() + "_done")[|s.Name()| + 1] != (t.Name() + "_start")[|s.Name()| + 1];
        } else {
          assert (s.Name() + "_done")[0] != (t.Name() + "_start")[0];
        }
      }
    case StageProgress(t, _) =>
      assert s.Name() + "_done" != t.Name() + "_progress" by {
        if s == t {
          assert (s.Name() + "_done")[|s.Name()| + 1] != (t.Name() + "_progress")[|s.Name()| + 1];
        } else {
          assert (s.Name() + "_done")[0] != (t.Name() + "_progress")[0];
        }
      }
    case StageDone(t, _) =>
      if s != t {
        assert (s.Name() + "_done")[0] != (t.Name() + "_done")[0];
      }
    case RagDone(n, _) =>
      assert d[0] != ("rag_stage_" + IntToString(n) + "_done")[0];
    case Abort(_, _) =>
  }

  /** The events `generate` yields for a stream of tokens. */
  function Trace(s: Stage, tokens: seq<string>): seq<Event> {
    [StageStart(s)] + Progress(s, tokens) + [StageDone(s, Concat(tokens))]
  }

  function Progress(s: Stage, tokens: seq<string>): (events: seq<Event>)
    ensures |events| == |tokens|
    ensures forall i :: 0 <= i < |tokens| ==> events[i] == StageProgress(s, tokens[i])
  {
    seq(|tokens|, i requires 0 <= i < |tokens| => StageProgress(s, tokens[i]))
  }

  /** `generate`'s loop: a `start` event, one `progress` event per token in
      stream order, and a `done` event with all tokens concatenated. */
  method StreamStage(s: Stage, tokens: seq<string>) returns (events: seq<Event>)
    ensures events == Trace(s, tokens)
  {
    var output := "";
    events := [StageStart(s)];
    for i := 0 to |tokens|
      invariant events == [StageStart(s)] + Progress(s, tokens[..i])
      invariant output == Concat(tokens[..i])
    {
      assert tokens[..i + 1][..i] == tokens[..i];
      events := events + [StageProgress(s, tokens[i])];
      output := output + tokens[i];
    }
    assert tokens[..|tokens|] == tokens;
    events := events + [StageDone(s, output)];
  }

  /** A stage trace has two events more than there are tokens: the `start`
      event first, token `i` in event `i + 1`, and the `done` event last. */
  lemma TraceShape(s: Stage, tokens: seq<string>)
    ensures |Trace(s, tokens)| == |tokens| + 2
    ensures Trace(s, tokens)[0] == StageStart(s)
    ensures forall i :: 0 <= i < |tokens| ==> Trace(s, tokens)[i + 1] == StageProgress(s, tokens[i])
    ensures Trace(s, tokens)[|tokens| + 1] == StageDone(s, Concat(tokens))
  {
    var p := Progress(s, tokens);
    var tr := [StageStart(s)] + p + [StageDone(s, Concat(tokens))];
    assert Trace(s, tokens) == tr;
    forall i | 0 <= i < |tokens|
      ensures tr[i + 1] == StageProgress(s, tokens[i])
    {
      assert tr[i + 1] == p[i];
    }
  }

  /** The variable the forwarding loop keeps: the payload of the last event
      labelled `<s>_done` among `events`, or `init` when there is none. */
  function LastPayload(events: seq<Event>, s: Stage, init: string): string
  {
    if events == [] then init
    else
      var e := events[|events| - 1];
      if Label(e) == Some(DoneLabel(s)) then
        DoneLabelOnlyOnDone(e, s);
        e.payload
      else LastPayload(events[..|events| - 1], s, init)
  }

  /** The forwarding loop of `run_pipeline`: every event is passed on
      unchanged and in order, and the variable ends up holding the last
      `done` payload of the stage, or `""`. */
  method Forward(events: seq<Event>, s: Stage) returns (forwarded: seq<Event>, payload: string)
    ensures forwarded == events
    ensures payload == LastPayload(events, s, "")
  {
    forwarded := [];
    payload := "";
    for i := 0 to |events|
      invariant forwarded == events[..i]
      invariant payload == LastPayload(events[..i], s, "")
    {
      assert events[..i + 1][..i] == events[..i];
      forwarded := forwarded + [events[i]];
      if Label(events[i]) == Some(DoneLabel(s)) {
        DoneLabelOnlyOnDone(events[i], s);
        payload := events[i].payload;
      }
    }
    assert events[..|events|] == events;
  }

  /** Without a `done` event the variable keeps its initial value. */
  lemma {:induction false} LastPayloadWithoutDone(events: seq<Event>, s: Stage, init: string)
    requires forall i :: 0 <= i < |events| ==> Label(events[i]) != Some(DoneLabel(s))
    ensures LastPayload(events, s, init) == init
  {
    if events != [] {
      LastPayloadWithoutDone(events[..|events| - 1], s, init);
    }
  }

  /** Forwarding a stage's own trace leaves the concatenated tokens in the
      variable. */
  lemma TracePayload(s: Stage, tokens: seq<string>)
    ensures LastPayload(Trace(s, tokens), s, "") == Concat(tokens)
  {
  }

  /** Forwarding the trace of another stage leaves the variable as it was. */
  lemma {:induction false} OtherTracePayload(s: Stage, t: Stage, tokens: seq<string>, init: string)
    requires s != t
    ensures LastPayload(Trace(t, tokens), s, init) == init
  {
    var tr := Trace(t, tokens);
    forall i | 0 <= i < |tr|
      ensures Label(tr[i]) != Some(DoneLabel(s))
    {
      DoneLabelOnlyOnDone(tr[i], s);
    }
    LastPayloadWithoutDone(tr, s, init);
  }
}
