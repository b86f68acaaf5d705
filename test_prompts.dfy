/** The weather topic prompt of `src/topic_prompts/test_prompts/mod.rs` and
    its fixed source of five worked examples. */
module TestPrompts {
  import opened Templates
  import opened MultiShotPrompts

  const WeatherInstruction: string :=
    "Could you generate a statement about the weather based on the weather condition statement in similar style as my examples above."

  datatype WeatherInTwoLanguages = WeatherInTwoLanguages(query: string)
  {
    /** `query`: a copy of the stored query. */
    function Query(): string
    {
      query
    }

    /** `new_from_prompt_template`: the instruction line, then the caller's
        weather statement verbatim on its own line. */
    static function NewFromPromptTemplate(weatherStatement: string): (r: WeatherInTwoLanguages)
      ensures r.Query() == WeatherInstruction + "\n" + weatherStatement + "\n"
      ensures |r.Query()| == |weatherStatement| + |WeatherInstruction| + 2
      ensures r.Query()[..|WeatherInstruction| + 1] == WeatherInstruction + "\n"
      ensures r.Query()[|WeatherInstruction| + 1..|r.Query()| - 1] == weatherStatement
      ensures r.Query()[|r.Query()| - 1] == '\n'
    {
      WeatherInTwoLanguages(Interpolate(WeatherInstruction + "\n", weatherStatement, "\n"))
    }
  }

  /** Different weather statements give different queries. */
  lemma WeatherTemplateInjective(a: string, b: string)
    ensures WeatherInTwoLanguages.NewFromPromptTemplate(a) == WeatherInTwoLanguages.NewFromPromptTemplate(b) <==> a == b
  {
    InterpolateInjective(WeatherInstruction + "\n", a, b, "\n");
  }

  const PromptLabel: string := "prompt: "
  const AnswerLabel: string := ", answer: "

  /** One worked example line: the prompt label, a weather situation, the
      answer label, the reply in two languages and a newline. */
  function ExampleEntry(situation: string, reply: string): string
  {
    PromptLabel + situation + AnswerLabel + reply + "\n"
  }

  // The five worked examples, character for character as the source file
  // holds them (its emoji are stored there in a mis-decoded form, and those
  // code points are kept). Replies are split in two only to keep each
  // literal short.
  const SummerReply: string :=
    "it seems like summer weather." + " Es sieht aus wie Sommerwetter \U{E2}\U{2DC}\U{20AC}\U{EF}\U{B8}"
  const AutumnReply: string :=
    "it seems like autumn weather." + " Es sieht aus wie Herbstwetter \U{11F}\U{178}\U{201A}"
  const WinterReply: string :=
    "it seems like winter weather." + " Es sieht aus wie Winterwetter \U{E2}\U{201E}\U{EF}\U{B8}"

  const Qa1: string := ExampleEntry("it is 25c and sunny in Berlin", SummerReply)
  const Qa2: string := ExampleEntry("it is 8c and rainy in Berlin", AutumnReply)
  const Qa3: string := ExampleEntry("it is 11c and sunny in Berlin", AutumnReply)
  const Qa4: string := ExampleEntry("it is -2c and sunny in Berlin", WinterReply)
  const Qa5: string := ExampleEntry("it is -4c and sunny in Berlin", WinterReply)

  /** The answer label stands at position `k` of `e`, after the prompt label. */
  predicate AnswerLabelAt(e: string, k: int)
  {
    |PromptLabel| <= k <= |e| - |AnswerLabel| && e[k..k + |AnswerLabel|] == AnswerLabel
  }

  /** A well-formed example: a single line that starts with the prompt
      label, holds the answer label and ends with a newline. */
  predicate IsExampleEntry(e: string)
  {
    && |e| > |PromptLabel|
    && e[..|PromptLabel|] == PromptLabel
    && (exists k :: 0 <= k <= |e| && AnswerLabelAt(e, k))
    && e[|e| - 1] == '\n'
    && '\n' !in e[..|e| - 1]
  }

  /** An entry built from a situation and a reply that hold no newline is
      well formed, and its answer label stands right after the situation. */
  lemma ExampleEntryWellFormed(situation: string, reply: string)
    requires '\n' !in situation && '\n' !in reply
    ensures IsExampleEntry(ExampleEntry(situation, reply))
    ensures AnswerLabelAt(ExampleEntry(situation, reply), |PromptLabel| + |situation|)
  {
    var e := ExampleEntry(situation, reply);
    var k := |PromptLabel| + |situation|;
    var line := PromptLabel + situation + AnswerLabel + reply;
    assert e == line + "\n";
    assert e[..|e| - 1] == line;
    assert e[..|PromptLabel|] == PromptLabel;
    assert e[k..k + |AnswerLabel|] == AnswerLabel;
    assert AnswerLabelAt(e, k);
    assert '\n' !in PromptLabel && '\n' !in AnswerLabel;
    assert '\n' !in line by {
      assert line == ((PromptLabel + situation) + AnswerLabel) + reply;
    }
  }

  // Each reply, and then each example, is checked on its own: the texts
  // are long enough that checking them together is costly.

  lemma SummerReplyOneLine() ensures '\n' !in SummerReply { }
  lemma AutumnReplyOneLine() ensures '\n' !in AutumnReply { }
  lemma WinterReplyOneLine() ensures '\n' !in WinterReply { }

  lemma Qa1WellFormed() ensures IsExampleEntry(Qa1)
  {
    SummerReplyOneLine();
    ExampleEntryWellFormed("it is 25c and sunny in Berlin", SummerReply);
  }

  lemma Qa2WellFormed() ensures IsExampleEntry(Qa2)
  {
    AutumnReplyOneLine();
    ExampleEntryWellFormed("it is 8c and rainy in Berlin", AutumnReply);
  }

  lemma Qa3WellFormed() ensures IsExampleEntry(Qa3)
  {
    AutumnReplyOneLine();
    ExampleEntryWellFormed("it is 11c and sunny in Berlin", AutumnReply);
  }

  lemma Qa4WellFormed() ensures IsExampleEntry(Qa4)
  {
    WinterReplyOneLine();
    ExampleEntryWellFormed("it is -2c and sunny in Berlin", WinterReply);
  }

  lemma Qa5WellFormed() ensures IsExampleEntry(Qa5)
  {
    WinterReplyOneLine();
    ExampleEntryWellFormed("it is -4c and sunny in Berlin", WinterReply);
  }

  /** `MultiShotQuestionsAndAnswersWeatherInTwoLanguages::multi_shot_questions_and_answers`:
      the five examples in their fixed order, each one a well-formed entry. */
  function MultiShotQuestionsAndAnswers(): (r: FiveExamples)
    ensures r == [Qa1, Qa2, Qa3, Qa4, Qa5]
    ensures forall i :: 0 <= i < |r| ==> IsExampleEntry(r[i])
  {
    Qa1WellFormed();
    Qa2WellFormed();
    Qa3WellFormed();
    Qa4WellFormed();
    Qa5WellFormed();
    [Qa1, Qa2, Qa3, Qa4, Qa5]
  }
}
