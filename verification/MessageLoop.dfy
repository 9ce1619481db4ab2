/** The native messaging loop: every frame is answered in turn, and startup cleanup is scheduled once. */
module MessageLoop {
  import opened Prelude
  import opened Bytes
  import opened Framing

  datatype Answer = Handled(payload: Payload) | Malformed(payload: Payload) | Unreadable(ending: Ending)

  // What decoding accepts, the encoded answers, and how many bytes each write takes before it fails.
  datatype Environment = Environment(
    decodes: Payload -> bool,
    reply: (nat, Answer) -> Payload,
    broken: nat -> Option<nat>)

  // The k-th answer reaches the browser as a whole.
  predicate Delivered(env: Environment, k: nat, a: Answer) {
    var p := env.reply(k, a);
    Allowed(p) && (env.broken(k).None? || env.broken(k).value >= 4 + |p|)
  }

  // What the k-th answer puts on the wire: its frame, or as much of it as the output takes.
  function PutOut(env: Environment, k: nat, a: Answer): seq<Byte> {
    var p := env.reply(k, a);
    if !Allowed(p) then []
    else if Delivered(env, k, a) then Frame(p)
    else Frame(p)[..env.broken(k).value]
  }

  /** The answers to a stream, from the k-th on: the loop ends early only when a handled answer is lost. */
  function Answers(messages: seq<Payload>, ending: Ending, env: Environment, k: nat): seq<Answer>
    decreases |messages|
  {
    if messages == [] then if ending == EndOfStream then [] else [Unreadable(ending)]
    else if !env.decodes(messages[0]) then [Malformed(messages[0])] + Answers(messages[1..], ending, env, k + 1)
    else if !Delivered(env, k, Handled(messages[0])) then [Handled(messages[0])]
    else [Handled(messages[0])] + Answers(messages[1..], ending, env, k + 1)
  }

  class MessageHost {
    var handled: seq<Payload>
    // The number of answers given when cleanup was scheduled.
    var cleanups: seq<nat>

    constructor ()
      ensures handled == [] && cleanups == []
    {
      handled, cleanups := [], [];
    }

    method Handle(p: Payload)
      modifies this`handled
      ensures handled == old(handled) + [p]
    {
      handled := handled + [p];
    }

    method StartStartupCleanup(answered: nat)
      modifies this`cleanups
      ensures cleanups == old(cleanups) + [answered]
    {
      cleanups := cleanups + [answered];
    }
  }

  predicate FirstDelivered(answers: seq<Answer>, env: Environment, k: nat) {
    && k < |answers| && answers[k].Handled? && Delivered(env, k, answers[k])
    && forall j :: 0 <= j < k ==> !(answers[j].Handled? && Delivered(env, j, answers[j]))
  }

  function HandledOnly(answers: seq<Answer>): seq<Payload> {
    if answers == [] then []
    else
      HandledOnly(answers[..|answers| - 1]) +
      if answers[|answers| - 1].Handled? then [answers[|answers| - 1].payload] else []
  }

  lemma HandledOnlyOn(answers: seq<Answer>, a: Answer)
    ensures HandledOnly(answers + [a]) == HandledOnly(answers) + if a.Handled? then [a.payload] else []
  {
    assert (answers + [a])[..|answers|] == answers;
  }

  // Cleanup was scheduled right after the first delivered answer to a valid request, or not yet.
  ghost predicate ScheduledRight(cleanups: seq<nat>, answers: seq<Answer>, env: Environment) {
    if cleanups == [] then forall k :: 0 <= k < |answers| ==> !(answers[k].Handled? && Delivered(env, k, answers[k]))
    else |cleanups| == 1 && cleanups[0] > 0 && FirstDelivered(answers, env, cleanups[0] - 1)
  }

  lemma ScheduledOn(cleanups: seq<nat>, answers: seq<Answer>, env: Environment, a: Answer)
    requires ScheduledRight(cleanups, answers, env)
    ensures cleanups != [] || !(a.Handled? && Delivered(env, |answers|, a)) ==> ScheduledRight(cleanups, answers + [a], env)
    ensures cleanups == [] && a.Handled? && Delivered(env, |answers|, a) ==>
              ScheduledRight([|answers| + 1], answers + [a], env)
  {
  }

  // The host and the output are where these answers leave them.
  ghost predicate Served(env: Environment, answers: seq<Answer>, handled: seq<Payload>, cleanups: seq<nat>,
                         before: seq<Byte>, sent: seq<Byte>)
  {
    && handled == HandledOnly(answers) && ScheduledRight(cleanups, answers, env)
    && sent == before + Sent(answers, env)
  }

  lemma Regrouped(a: seq<Byte>, b: seq<Byte>, c: seq<Byte>)
    ensures a + b + c == a + (b + c)
  {
  }

  // One more answer, sent as far as the output takes it.
  lemma ServedOn(env: Environment, answers: seq<Answer>, handled: seq<Payload>, cleanups: seq<nat>, before: seq<Byte>,
                 sent: seq<Byte>, a: Answer, now: seq<Byte>)
    requires Served(env, answers, handled, cleanups, before, sent)
    requires now == sent + PutOut(env, |answers|, a)
    ensures Served(env, answers + [a], HandledAfter(handled, a), CleanupsAfter(cleanups, env, |answers|, a), before, now)
  {
    Answered(answers, env, a, cleanups);
    Regrouped(before, Sent(answers, env), PutOut(env, |answers|, a));
  }

  /** runMessageLoop over the whole input. */
  method RunMessageLoop(reader: Reader, writer: Writer, host: MessageHost, env: Environment)
    returns (ghost answers: seq<Answer>)
    requires host.handled == [] && host.cleanups == []
    modifies reader, writer, host
    ensures answers == AnswersTo(old(reader.rest), env, 0)
    ensures Served(env, answers, host.handled, host.cleanups, old(writer.sent), writer.sent)
  {
    answers := [];
    var scheduled, count, more := false, 0, true;
    while more
      invariant |answers| == count
      invariant Served(env, answers, host.handled, host.cleanups, old(writer.sent), writer.sent)
      invariant AnswersTo(old(reader.rest), env, 0) == answers + Remaining(more, reader.rest, env, count)
      invariant more ==> (!scheduled <==> host.cleanups == [])
      decreases more, |reader.rest|
    {
      ghost var stream, handled, cleanups, sent := reader.rest, host.handled, host.cleanups, writer.sent;
      var a;
      a, more := ServeNext(reader, writer, host, env, count, !scheduled);
      Turn(old(reader.rest), stream, reader.rest, env, answers);
      if a.Some? {
        ServedOn(env, answers, handled, cleanups, old(writer.sent), sent, a.value, writer.sent);
        answers, count := answers + [a.value], count + 1;
        scheduled := scheduled || a.value.Handled?;
      }
    }
  }

  // One turn of the loop: the answer it gave, and whether the loop goes on.
  method ServeNext(reader: Reader, writer: Writer, host: MessageHost, env: Environment, k: nat, scheduling: bool)
    returns (a: Option<Answer>, more: bool)
    requires scheduling <==> host.cleanups == []
    modifies reader, writer, host
    ensures a == AnswerTo(old(reader.rest), env) && (more <==> a.Some? && GoesOn(a.value, env, k))
    ensures Read(old(reader.rest)).Message? ==> reader.rest == Read(old(reader.rest)).rest
    ensures a.None? ==> writer.sent == old(writer.sent) && host.handled == old(host.handled)
                        && host.cleanups == old(host.cleanups)
    ensures a.Some? ==> host.handled == HandledAfter(old(host.handled), a.value)
                        && host.cleanups == CleanupsAfter(old(host.cleanups), env, k, a.value)
    ensures a.Some? ==> writer.sent == old(writer.sent) + PutOut(env, k, a.value)
  {
    var read := reader.ReadMessage();
    if read == Err(EndOfStream) {
      return None, false;
    }
    if read.Err? {
      a := Some(Unreadable(read.error));
      var _ := writer.WriteMessage(env.reply(k, a.value), env.broken(k));
      return a, false;
    }
    if !env.decodes(read.value) {
      a := Some(Malformed(read.value));
      var _ := writer.WriteMessage(env.reply(k, a.value), env.broken(k));
      return a, true;
    }
    a := Some(Handled(read.value));
    host.Handle(read.value);
    more := writer.WriteMessage(env.reply(k, a.value), env.broken(k));
    if more && scheduling {
      host.StartStartupCleanup(k + 1);
    }
  }

  // The answers still to come, if the loop goes on.
  function Remaining(more: bool, stream: seq<Byte>, env: Environment, k: nat): seq<Answer> {
    if more then AnswersTo(stream, env, k) else []
  }

  function HandledAfter(handled: seq<Payload>, a: Answer): seq<Payload> {
    if a.Handled? then handled + [a.payload] else handled
  }

  // The k-th answer schedules cleanup when it is the first to get through to a valid request.
  function CleanupsAfter(cleanups: seq<nat>, env: Environment, k: nat, a: Answer): seq<nat> {
    if cleanups == [] && a.Handled? && Delivered(env, k, a) then [k + 1] else cleanups
  }

  // What the next bytes call for; None at a silent end.
  function AnswerTo(stream: seq<Byte>, env: Environment): Option<Answer> {
    match Read(stream)
    case NoMessage(ending) => if ending == EndOfStream then None else Some(Unreadable(ending))
    case Message(p, _) => Some(if env.decodes(p) then Handled(p) else Malformed(p))
  }

  predicate GoesOn(a: Answer, env: Environment, k: nat) {
    a.Malformed? || (a.Handled? && Delivered(env, k, a))
  }

  // The session's answers after one more turn.
  lemma Turn(input: seq<Byte>, stream: seq<Byte>, rest: seq<Byte>, env: Environment, answers: seq<Answer>)
    requires AnswersTo(input, env, 0) == answers + AnswersTo(stream, env, |answers|)
    requires Read(stream).Message? ==> rest == Read(stream).rest
    ensures match AnswerTo(stream, env)
            case None => AnswersTo(input, env, 0) == answers
            case Some(a) => AnswersTo(input, env, 0) ==
                            answers + [a] + Remaining(GoesOn(a, env, |answers|), rest, env, |answers| + 1)
  {
    NextAnswer(stream, env, |answers|);
    if AnswerTo(stream, env).Some? {
      var a := AnswerTo(stream, env).value;
      var more := Remaining(GoesOn(a, env, |answers|), rest, env, |answers| + 1);
      assert AnswersTo(stream, env, |answers|) == [a] + more;
      assert answers + ([a] + more) == answers + [a] + more;
    }
  }

  function AnswersTo(stream: seq<Byte>, env: Environment, k: nat): seq<Answer> {
    Answers(ReadAll(stream).messages, ReadAll(stream).ending, env, k)
  }

  lemma NextAnswer(stream: seq<Byte>, env: Environment, k: nat)
    ensures match Read(stream)
            case NoMessage(ending) =>
              AnswersTo(stream, env, k) == if ending == EndOfStream then [] else [Unreadable(ending)]
            case Message(p, rest) =>
              AnswersTo(stream, env, k) ==
              if !env.decodes(p) then [Malformed(p)] + AnswersTo(rest, env, k + 1)
              else if !Delivered(env, k, Handled(p)) then [Handled(p)]
              else [Handled(p)] + AnswersTo(rest, env, k + 1)
  {
    if Read(stream).Message? {
      assert ReadAll(stream).messages[1..] == ReadAll(Read(stream).rest).messages;
    }
  }

  function Sent(answers: seq<Answer>, env: Environment): seq<Byte> {
    if answers == [] then []
    else var k := |answers| - 1; Sent(answers[..k], env) + PutOut(env, k, answers[k])
  }

  lemma Answered(answers: seq<Answer>, env: Environment, a: Answer, cleanups: seq<nat>)
    requires ScheduledRight(cleanups, answers, env)
    ensures HandledOnly(answers + [a]) == HandledOnly(answers) + if a.Handled? then [a.payload] else []
    ensures cleanups != [] || !(a.Handled? && Delivered(env, |answers|, a)) ==> ScheduledRight(cleanups, answers + [a], env)
    ensures cleanups == [] && a.Handled? && Delivered(env, |answers|, a) ==>
              ScheduledRight([|answers| + 1], answers + [a], env)
    ensures Sent(answers + [a], env) == Sent(answers, env) + PutOut(env, |answers|, a)
  {
    HandledOnlyOn(answers, a);
    ScheduledOn(cleanups, answers, env, a);
    assert (answers + [a])[..|answers|] == answers;
  }

  /** When nothing is lost, each complete frame is answered exactly once and in order, and a bad end once more. */
  lemma {:induction false} EveryFrameIsAnswered(messages: seq<Payload>, ending: Ending, env: Environment, k: nat)
    requires forall j: nat, a: Answer :: Delivered(env, j, a)
    ensures var answers := Answers(messages, ending, env, k);
            && |answers| == |messages| + (if ending == EndOfStream then 0 else 1)
            && (forall i :: 0 <= i < |messages| ==>
                  answers[i] == if env.decodes(messages[i]) then Handled(messages[i]) else Malformed(messages[i]))
            && (ending != EndOfStream ==> answers[|messages|] == Unreadable(ending))
    decreases |messages|
  {
    if messages != [] {
      EveryFrameIsAnswered(messages[1..], ending, env, k + 1);
    }
  }

  /** In any case the answers follow the frames, and only a lost answer to a valid request ends them early. */
  lemma {:induction false} AnswersFollowFrames(messages: seq<Payload>, ending: Ending, env: Environment, k: nat, i: nat)
    requires i < |Answers(messages, ending, env, k)|
    ensures var answers := Answers(messages, ending, env, k);
            && i <= |messages|
            && (i < |messages| ==>
                  answers[i] == if env.decodes(messages[i]) then Handled(messages[i]) else Malformed(messages[i]))
            && (i + 1 == |answers| && i + 1 < |messages| ==>
                  answers[i].Handled? && !Delivered(env, k + i, answers[i]))
    decreases |messages|
  {
    if messages != [] && i > 0 {
      AnswersFollowFrames(messages[1..], ending, env, k + 1, i - 1);
    }
  }
}
