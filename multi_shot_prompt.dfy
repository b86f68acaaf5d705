/** The multi-shot prompt types of `src/prompt_types/multi_shot_prompt/mod.rs`:
    the example count, the prompt wrapper and the shape of an example
    source. */
module MultiShotPrompts {

  /** What `multi_shot_questions_and_answers` returns: `[String; 5]`. */
  type FiveExamples = s: seq<string> | |s| == 5 witness ["", "", "", "", ""]

  /** `MultiShotExampleCount`, with the source's variant names. */
  datatype MultiShotExampleCount = One | Two | Tree | Four | Five

  /** The explicit discriminant of each variant. */
  function Discriminant(c: MultiShotExampleCount): (n: int)
    ensures 1 <= n <= 5
  {
    match c
    case One => 1
    case Two => 2
    case Tree => 3
    case Four => 4
    case Five => 5
  }

  /** The variants, in declaration order, stand for 1 to 5, and each of
      those counts is the discriminant of exactly one variant. */
  lemma DiscriminantIsBijection(a: MultiShotExampleCount, b: MultiShotExampleCount, n: int)
    ensures [Discriminant(One), Discriminant(Two), Discriminant(Tree), Discriminant(Four), Discriminant(Five)] == [1, 2, 3, 4, 5]
    ensures Discriminant(a) == Discriminant(b) ==> a == b
    ensures 1 <= n <= 5 ==> exists c :: Discriminant(c) == n
  {
    if 1 <= n <= 5 {
      var c := [One, Two, Tree, Four, Five][n - 1];
      assert Discriminant(c) == n;
    }
  }

  datatype MultiShotPrompt = MultiShotPrompt(prompt: string)
  {
    /** `MultiShotPrompt::new`: the text is stored as it is. */
    static function New(prompt: string): (r: MultiShotPrompt)
      ensures r.Prompt() == prompt
    {
      MultiShotPrompt(prompt)
    }

    /** `MultiShotPrompt::prompt`: a copy of the stored text. */
    function Prompt(): string
    {
      prompt
    }
  }

  /** The wrapper holds nothing but the prompt. */
  lemma NewIsBijective(a: string, b: string, w: MultiShotPrompt)
    ensures MultiShotPrompt.New(a) == MultiShotPrompt.New(b) <==> a == b
    ensures MultiShotPrompt.New(w.Prompt()) == w
  {
  }
}
