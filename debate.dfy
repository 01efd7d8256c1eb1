/**
 * The Advocate/Skeptic debate loop shared by the web backend and the
 * command-line script: each round the Advocate speaks, then the Skeptic,
 * and each of them sees a fixed prompt prefix followed by the whole debate
 * history so far.
 */
module Debate {
  import opened Llm

  /** One entry of a conversation: who spoke and what `call_llm` returned. */
  datatype AgentMessage = AgentMessage(agent: string, message: string)

  /** The text one turn adds to the debate history: "\n[Agent]: message\n". */
  function Tag(m: AgentMessage): string {
    "\n[" + m.agent + "]: " + m.message + "\n"
  }

  /** The debate history after the given turns. */
  function Render(turns: seq<AgentMessage>): string {
    if turns == [] then "" else Render(turns[..|turns| - 1]) + Tag(turns[|turns| - 1])
  }

  /** The debate so far: the requests made, the turns taken and the history text. */
  datatype State = State(log: seq<Request>, turns: seq<AgentMessage>, history: string)

  /** The debate before its first round, after the requests in `log`. */
  function Opening(log: seq<Request>): State {
    State(log, [], "")
  }

  /** The request of a debater: its persona, the prefix and the history so far, the fast model. */
  function TurnRequest(persona: Persona, prefix: string, history: string): Request {
    Request(persona, prefix + history, FastModel, ChatTemperature)
  }

  /** One turn: `persona` is asked, its answer is recorded and appended to the history. */
  function Speak(chat: Oracle, prefix: string, s: State, persona: Persona): State {
    var request := TurnRequest(persona, prefix, s.history);
    var m := AgentMessage(persona.Name(), chat(s.log, request));
    State(s.log + [request], s.turns + [m], s.history + Tag(m))
  }

  /** One round: the Advocate, then the Skeptic. */
  function Round(chat: Oracle, prefix: string, s: State): State {
    Speak(chat, prefix, Speak(chat, prefix, s, Advocate), Skeptic)
  }

  /** `n` rounds. */
  function Rounds(chat: Oracle, prefix: string, n: nat, s: State): State
    decreases n
  {
    if n == 0 then s else Rounds(chat, prefix, n - 1, Round(chat, prefix, s))
  }

  /** Who speaks at turn `k` (from zero) of a debate. */
  function Speaker(k: nat): Persona {
    if k % 2 == 0 then Advocate else Skeptic
  }

  /**
   * Turn `k` of a debate that began after the requests in `base`: the
   * speaker alternates starting with the Advocate, its prompt is the prefix
   * followed by the history of all earlier turns, and its message is the
   * answer to that very request.
   */
  predicate TurnAt(chat: Oracle, prefix: string, base: seq<Request>, s: State, k: nat)
    requires |s.log| == |base| + |s.turns| && k < |s.turns|
  {
    && s.log[|base| + k] == TurnRequest(Speaker(k), prefix, Render(s.turns[..k]))
    && s.turns[k] == AgentMessage(Speaker(k).Name(), chat(s.log[..|base| + k], s.log[|base| + k]))
  }

  /** Every turn of `s` so far was taken as `TurnAt` describes, and the history is their rendering. */
  predicate Conducted(chat: Oracle, prefix: string, base: seq<Request>, s: State) {
    && |s.log| == |base| + |s.turns|
    && s.log[..|base|] == base
    && s.history == Render(s.turns)
    && forall k | 0 <= k < |s.turns| :: TurnAt(chat, prefix, base, s, k)
  }

  /** A debate that has not started yet is conducted correctly. */
  lemma OpeningConducted(chat: Oracle, prefix: string, base: seq<Request>)
    ensures Conducted(chat, prefix, base, Opening(base))
  {
  }

  /** A turn taken by the right speaker keeps a debate conducted correctly. */
  lemma SpeakConducted(chat: Oracle, prefix: string, base: seq<Request>, s: State, persona: Persona)
    requires Conducted(chat, prefix, base, s)
    requires persona == Speaker(|s.turns|)
    ensures var s' := Speak(chat, prefix, s, persona);
      Conducted(chat, prefix, base, s') && |s'.turns| == |s.turns| + 1
  {
    var s' := Speak(chat, prefix, s, persona);
    var n := |s.turns|;
    assert s'.log[..|base|] == base by {
      assert s'.log[..|base|] == s.log[..|base|];
    }
    assert s'.turns[..n] == s.turns;
    assert s'.history == Render(s'.turns);
    forall k | 0 <= k < |s'.turns|
      ensures TurnAt(chat, prefix, base, s', k)
    {
      assert s'.log[..|base| + k] == s.log[..|base| + k] || k == n;
      if k < n {
        assert TurnAt(chat, prefix, base, s, k);
        assert s'.turns[..k] == s.turns[..k];
        assert s'.log[..|base| + k] == s.log[..|base| + k];
      } else {
        assert s'.log[..|base| + k] == s.log;
      }
    }
  }

  /**
   * `n` rounds from a correctly conducted debate with an even number of
   * turns add exactly `2 n` turns and requests, and keep it conducted
   * correctly.
   */
  lemma {:induction false} RoundsConducted(chat: Oracle, prefix: string, base: seq<Request>, n: nat, s: State)
    requires Conducted(chat, prefix, base, s) && |s.turns| % 2 == 0
    ensures var s' := Rounds(chat, prefix, n, s);
      Conducted(chat, prefix, base, s') && |s'.turns| == |s.turns| + 2 * n
    decreases n
  {
    if n > 0 {
      var a := Speak(chat, prefix, s, Advocate);
      SpeakConducted(chat, prefix, base, s, Advocate);
      SpeakConducted(chat, prefix, base, a, Skeptic);
      RoundsConducted(chat, prefix, base, n - 1, Round(chat, prefix, s));
    }
  }

  /** Rounds only extend a debate: the earlier turns and requests stay as they were. */
  lemma {:induction false} RoundsExtend(chat: Oracle, prefix: string, n: nat, s: State)
    ensures var s' := Rounds(chat, prefix, n, s);
      && |s'.turns| == |s.turns| + 2 * n
      && |s'.log| == |s.log| + 2 * n
      && s'.turns[..|s.turns|] == s.turns
      && s'.log[..|s.log|] == s.log
    decreases n
  {
    if n > 0 {
      var r := Round(chat, prefix, s);
      RoundsExtend(chat, prefix, n - 1, r);
      var s' := Rounds(chat, prefix, n, s);
      assert s'.turns[..|s.turns|] == s'.turns[..|r.turns|][..|s.turns|];
      assert s'.log[..|s.log|] == s'.log[..|r.log|][..|s.log|];
    }
  }

  /** The history of a concatenation of turns is the concatenation of their histories. */
  lemma {:induction false} RenderAppend(a: seq<AgentMessage>, b: seq<AgentMessage>)
    ensures Render(a + b) == Render(a) + Render(b)
    decreases |b|
  {
    if b == [] {
      assert a + b == a;
    } else {
      var b' := b[..|b| - 1];
      assert (a + b)[..|a + b| - 1] == a + b';
      assert (a + b)[|a + b| - 1] == b[|b| - 1];
      RenderAppend(a, b');
      AppendAssociates(Render(a), Render(b'), Tag(b[|b| - 1]));
    }
  }

  /**
   * Every earlier turn appears, whole and in order, in the history a later
   * speaker is shown: the history before turn `k` is the history before
   * turn `j`, then turn `j`, then the turns between them.
   */
  lemma HistoryShowsEarlierTurns(turns: seq<AgentMessage>, j: nat, k: nat)
    requires j < k <= |turns|
    ensures Render(turns[..k]) == Render(turns[..j]) + Tag(turns[j]) + Render(turns[j + 1..k])
  {
    assert turns[..k] == turns[..j] + [turns[j]] + turns[j + 1..k];
    RenderAppend(turns[..j] + [turns[j]], turns[j + 1..k]);
    RenderAppend(turns[..j], [turns[j]]);
    assert [turns[j]][..0] == [];
  }
}
