/** The zero-shot prompt of `src/prompt_types/zero_shot_prompt/mod.rs`:
    an identity wrapper around already-rendered text. */
module ZeroShotPrompts {

  datatype ZeroShotPrompt = ZeroShotPrompt(prompt: string)
  {
    /** `ZeroShotPrompt::new`: any text is accepted, the empty text too,
        and stored as it is. */
    static function New(prompt: string): (r: ZeroShotPrompt)
      ensures r.Prompt() == prompt
    {
      ZeroShotPrompt(prompt)
    }

    /** `ZeroShotPrompt::prompt`: a copy of the stored text. */
    function Prompt(): string
    {
      prompt
    }
  }

  /** The wrapper holds nothing but the prompt: wrapping is injective and
      every wrapper is the wrapping of what it returns. */
  lemma NewIsBijective(a: string, b: string, w: ZeroShotPrompt)
    ensures ZeroShotPrompt.New(a) == ZeroShotPrompt.New(b) <==> a == b
    ensures ZeroShotPrompt.New(w.Prompt()) == w
  {
  }
}
