/**
 * The transcription buffers of App.tsx:133-145 (transcriptionRef). Partial
 * transcription text of the current turn accumulates in a user buffer and a
 * model buffer; the turn-complete signal flushes each non-empty buffer into one
 * transcript message, the user's before the assistant's, and clears both.
 */
module Transcript {
  import opened Types

  /** A transcription part of a server message; the SDK leaves `text` optional. */
  datatype Transcription = Transcription(text: Option<string>)

  /** The open turn's text: what the user said and what the model said. */
  datatype Buffers = Buffers(user: string, model: string)

  const Cleared := Buffers("", "")

  /** The transcription-bearing part of one server message. */
  datatype Partial = Partial(input: Option<Transcription>, output: Option<Transcription>)

  /** The text a message adds to the user buffer: none when the input part is
      absent, "undefined" when it has no text, as `+=` does in JavaScript. */
  function HeardIn(p: Partial): string
  {
    if p.input.Some? then Show(p.input.value.text) else ""
  }

  /** The text a message adds to the model buffer. */
  function SaidIn(p: Partial): string
  {
    if p.output.Some? then Show(p.output.value.text) else ""
  }

  /** Appends a message's input transcription to the user buffer and its
      output transcription to the model buffer. */
  function Absorb(b: Buffers, p: Partial): (r: Buffers)
    ensures p.input.None? ==> r.user == b.user
    ensures p.output.None? ==> r.model == b.model
    ensures p.input.Some? ==> r.user == b.user + Show(p.input.value.text)
    ensures p.output.Some? ==> r.model == b.model + Show(p.output.value.text)
  {
    Buffers(b.user + HeardIn(p), b.model + SaidIn(p))
  }

  /** The transcript after a turn-complete signal with buffers `b`: the
      history is kept, a user message carries the user buffer exactly when it
      is non-empty, then an assistant message carries the model buffer exactly
      when that is non-empty; both are stamped `now`. */
  function Flush(history: seq<Message>, b: Buffers, now: int): (r: seq<Message>)
    ensures |r| == |history| + (if b.user != "" then 1 else 0) + (if b.model != "" then 1 else 0)
    ensures r[..|history|] == history
    ensures forall i :: |history| <= i < |r| ==>
      r[i].text != "" && r[i].timestamp == now &&
      r[i].text == (if r[i].role == User then b.user else b.model)
    ensures forall i :: |history| <= i < |r| ==>
      (r[i].role == User <==> i == |history| && b.user != "")
  {
    var withUser := if b.user != "" then history + [Message(User, b.user, now)] else history;
    if b.model != "" then withUser + [Message(Assistant, b.model, now)] else withUser
  }

  /** The buffers after absorbing a run of server messages, in arrival order. */
  function AbsorbAll(b: Buffers, ps: seq<Partial>): Buffers
    decreases |ps|
  {
    if ps == [] then b else AbsorbAll(Absorb(b, ps[0]), ps[1..])
  }

  /** Everything the user was heard to say across `ps`, in order. */
  function Heard(ps: seq<Partial>): string
    decreases |ps|
  {
    if ps == [] then ""
    else HeardIn(ps[0]) + Heard(ps[1..])
  }

  /** Everything the model was heard to say across `ps`, in order. */
  function Said(ps: seq<Partial>): string
    decreases |ps|
  {
    if ps == [] then ""
    else SaidIn(ps[0]) + Said(ps[1..])
  }

  /** Absorbing a run of messages appends all their input text to the user
      buffer and all their output text to the model buffer, each in order. */
  lemma {:induction false} AbsorbAllConcatenates(b: Buffers, ps: seq<Partial>)
    ensures AbsorbAll(b, ps) == Buffers(b.user + Heard(ps), b.model + Said(ps))
    decreases |ps|
  {
    if ps != [] {
      AbsorbAllConcatenates(Absorb(b, ps[0]), ps[1..]);
      assert (b.user + HeardIn(ps[0])) + Heard(ps[1..]) == b.user + (HeardIn(ps[0]) + Heard(ps[1..]));
      assert (b.model + SaidIn(ps[0])) + Said(ps[1..]) == b.model + (SaidIn(ps[0]) + Said(ps[1..]));
    }
  }

  /** A turn whose partial transcriptions arrive in `ps`, closed by the
      turn-complete signal, appends exactly one user message with everything
      heard (when anything was) followed by exactly one assistant message with
      everything said (when anything was), and leaves the buffers empty for
      the next turn. */
  lemma TurnFlushIsAtomic(history: seq<Message>, ps: seq<Partial>, now: int)
    ensures Flush(history, AbsorbAll(Cleared, ps), now) ==
      history
      + (if Heard(ps) != "" then [Message(User, Heard(ps), now)] else [])
      + (if Said(ps) != "" then [Message(Assistant, Said(ps), now)] else [])
  {
    AbsorbAllConcatenates(Cleared, ps);
    assert AbsorbAll(Cleared, ps) == Buffers(Heard(ps), Said(ps));
  }
}
