/**
 * The dictation text field: a text input whose microphone button starts
 * and stops a speech recognition engine, and whose result handler appends
 * the final transcript to the field's value. The engine is outside the
 * model: its result, error and end events are inputs, and the start and
 * stop calls made on it are recorded.
 */
module VoiceInputModel {
  import opened Wrappers

  /** One entry of `event.results`: whether it is final, and the transcript
      of its first alternative. */
  datatype SpeechResult = SpeechResult(isFinal: bool, transcript: string)

  datatype EngineCall = Start | Stop

  /** The results from `from` to the end; none when `from` is past the end. */
  function From(results: seq<SpeechResult>, from: nat): (r: seq<SpeechResult>)
    ensures from <= |results| ==> r == results[from..]
    ensures from > |results| ==> r == []
  {
    if from <= |results| then results[from..] else []
  }

  /** The final transcripts of `rs`, in order; interim results add nothing. */
  function FinalText(rs: seq<SpeechResult>): string
    decreases |rs|
  {
    if rs == [] then ""
    else FinalText(rs[..|rs| - 1]) + (if rs[|rs| - 1].isFinal then rs[|rs| - 1].transcript else "")
  }

  /** Interim results never matter: two result lists that agree on which
      entries are final, and on the final entries' transcripts, give the same
      text. */
  lemma {:induction false} FinalTextIgnoresInterim(a: seq<SpeechResult>, b: seq<SpeechResult>)
    requires |a| == |b|
    requires forall i :: 0 <= i < |a| ==> a[i].isFinal == b[i].isFinal && (a[i].isFinal ==> a[i].transcript == b[i].transcript)
    ensures FinalText(a) == FinalText(b)
    decreases |a|
  {
    if a != [] {
      FinalTextIgnoresInterim(a[..|a| - 1], b[..|b| - 1]);
    }
  }

  /** With no final result there is no text. */
  lemma {:induction false} NoFinalNoText(rs: seq<SpeechResult>)
    requires forall i :: 0 <= i < |rs| ==> !rs[i].isFinal
    ensures FinalText(rs) == ""
    decreases |rs|
  {
    if rs != [] {
      NoFinalNoText(rs[..|rs| - 1]);
    }
  }

  /** The `onChange` value for dictated text: the base, a space when the
      base is non-empty, then the text; so never a leading space for an
      empty base. */
  function Appended(base: string, text: string): (r: string)
    ensures |r| == |base| + |text| + (if base == "" then 0 else 1)
    ensures r[..|base|] == base && r[|r| - |text|..] == text
    ensures base != "" ==> r[|base|] == ' '
  {
    base + (if base != "" then " " else "") + text
  }

  /** What one result event emits: nothing when there is no final text. */
  function Emitted(base: string, results: seq<SpeechResult>, resultIndex: nat): (r: Option<string>)
    ensures r.None? <==> FinalText(From(results, resultIndex)) == ""
    ensures r.Some? ==> r.value == Appended(base, FinalText(From(results, resultIndex)))
  {
    var text := FinalText(From(results, resultIndex));
    if text != "" then Some(Appended(base, text)) else None
  }

  class VoiceInput {
    /** Whether the browser offers speech recognition; fixed at mount. */
    const supported: bool
    var listening: bool
    /** The `value` prop of the latest render. */
    var value: string
    /** The `value` the result handler closed over: the one at mount. */
    var base: string
    /** Every `onChange` argument, oldest first. */
    var emitted: seq<string>
    /** Every call made on the engine, oldest first. */
    var calls: seq<EngineCall>

    constructor (browserSupports: bool, initial: string)
      ensures supported == browserSupports && !listening
      ensures value == initial && base == initial && emitted == [] && calls == []
    {
      supported := browserSupports;
      listening := false;
      value := initial;
      base := initial;
      emitted := [];
      calls := [];
    }

    /** A re-render with a new `value`: the input shows it, but the result
        handler, set up once at mount, keeps the old one. */
    method ReceiveValue(v: string)
      modifies this
      ensures value == v && base == old(base)
      ensures listening == old(listening) && emitted == old(emitted) && calls == old(calls)
    {
      value := v;
    }

    /** The loop of `onresult`: the final transcripts from `resultIndex` on,
        concatenated in order. */
    method CollectFinal(results: seq<SpeechResult>, resultIndex: nat) returns (text: string)
      ensures text == FinalText(From(results, resultIndex))
    {
      text := "";
      if resultIndex > |results| {
        return;
      }
      var i := resultIndex;
      while i < |results|
        invariant resultIndex <= i <= |results|
        invariant text == FinalText(results[resultIndex..i])
      {
        assert results[resultIndex..i + 1][..i - resultIndex] == results[resultIndex..i];
        if results[i].isFinal {
          text := text + results[i].transcript;
        }
        i := i + 1;
      }
      assert results[resultIndex..i] == results[resultIndex..];
    }

    /** `onresult`: emits base, separator and final text, or nothing when
        there is no final text. Without engine support no handler exists. */
    method OnResult(results: seq<SpeechResult>, resultIndex: nat)
      modifies this
      ensures supported && Emitted(base, results, resultIndex).Some? ==>
                emitted == old(emitted) + [Emitted(base, results, resultIndex).value]
      ensures !supported || Emitted(base, results, resultIndex).None? ==> emitted == old(emitted)
      ensures listening == old(listening) && value == old(value) && base == old(base) && calls == old(calls)
    {
      if !supported {
        return;
      }
      var text := CollectFinal(results, resultIndex);
      if text != "" {
        emitted := emitted + [Appended(base, text)];
      }
    }

    /** `onerror` and `onend`: the field stops showing as listening. */
    method OnEngineStopped()
      modifies this
      ensures !listening
      ensures value == old(value) && base == old(base) && emitted == old(emitted) && calls == old(calls)
    {
      listening := false;
    }

    /** The microphone button: nothing without support; otherwise stops a
        listening engine or starts an idle one. */
    method ToggleListening()
      modifies this
      ensures !supported ==> listening == old(listening) && calls == old(calls)
      ensures supported ==> listening == !old(listening)
      ensures supported ==> calls == old(calls) + [if old(listening) then Stop else Start]
      ensures value == old(value) && base == old(base) && emitted == old(emitted)
    {
      if !supported {
        return;
      }
      if listening {
        calls := calls + [Stop];
        listening := false;
      } else {
        calls := calls + [Start];
        listening := true;
      }
    }

    /** Typing: the text reaches `onChange` as it is. */
    method Typed(text: string)
      modifies this
      ensures emitted == old(emitted) + [text]
      ensures listening == old(listening) && value == old(value) && base == old(base) && calls == old(calls)
    {
      emitted := emitted + [text];
    }
  }

  /** The parent's value after rounds of dictation, each round's final text
      emitted and fed back as the new `value`, as written: every emission
      appends to `mount`, the value the handler closed over. A round with no
      final text emits nothing. */
  function ValueAfterRounds(mount: string, current: string, rounds: seq<string>): string
    decreases |rounds|
  {
    if rounds == [] then current
    else ValueAfterRounds(mount, if rounds[0] == "" then current else Appended(mount, rounds[0]), rounds[1..])
  }

  /** As written, only the last round survives: every earlier dictation is
      overwritten. */
  lemma {:induction false} OnlyLastRoundSurvives(mount: string, current: string, rounds: seq<string>)
    requires rounds != [] && rounds[|rounds| - 1] != ""
    ensures ValueAfterRounds(mount, current, rounds) == Appended(mount, rounds[|rounds| - 1])
    decreases |rounds|
  {
    if |rounds| > 1 {
      var next := if rounds[0] == "" then current else Appended(mount, rounds[0]);
      OnlyLastRoundSurvives(mount, next, rounds[1..]);
    }
  }

  /** The concrete case: "hello" then "world" into a field empty at mount
      leaves "world". */
  lemma SecondDictationReplacesFirst()
    ensures ValueAfterRounds("", "", ["hello", "world"]) == "world"
  {
    OnlyLastRoundSurvives("", "", ["hello", "world"]);
  }

  /** As evidently intended: each emission appends to the field's current value. */
  function CorrectedValueAfterRounds(current: string, rounds: seq<string>): (r: string)
    ensures |r| >= |current| && r[..|current|] == current
    decreases |rounds|
  {
    if rounds == [] then current
    else
      var next := if rounds[0] == "" then current else Appended(current, rounds[0]);
      var r := CorrectedValueAfterRounds(next, rounds[1..]);
      assert r[..|current|] == r[..|next|][..|current|];
      r
  }

  /** With the correction, the value after another round is the value before
      it, a separator, and that round's text. */
  lemma {:induction false} CorrectedRoundAppends(current: string, rounds: seq<string>, last: string)
    requires last != ""
    ensures CorrectedValueAfterRounds(current, rounds + [last]) ==
              Appended(CorrectedValueAfterRounds(current, rounds), last)
    decreases |rounds|
  {
    if rounds == [] {
      assert [last][1..] == [];
    } else {
      assert (rounds + [last])[0] == rounds[0] && (rounds + [last])[1..] == rounds[1..] + [last];
      var next := if rounds[0] == "" then current else Appended(current, rounds[0]);
      CorrectedRoundAppends(next, rounds[1..], last);
    }
  }

  /** With the correction, "hello" then "world" gives "hello world". */
  lemma CorrectedDictationsAccumulate()
    ensures CorrectedValueAfterRounds("", ["hello", "world"]) == "hello world"
  {
    var first := CorrectedValueAfterRounds("", ["hello"]);
    assert ["hello"][1..] == [];
    assert first == CorrectedValueAfterRounds("hello", []) == "hello";
    CorrectedRoundAppends("", ["hello"], "world");
    assert ["hello"] + ["world"] == ["hello", "world"];
    assert Appended("hello", "world") == "hello" + " " + "world" == "hello world";
  }
}
