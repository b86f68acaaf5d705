/** The Rust code-fixing topic prompt of
    `tests/topic_prompts/programming/rust/fix_code/mod.rs`. */
module FixCode {
  import opened Templates

  const FixCodeHeader: string := "Could you help me to fix this Rust code:\n```rust\n"
  const FixCodeFooter: string := "\n```\n"

  datatype FixRustCode = FixRustCode(query: string)
  {
    /** `query`: a copy of the stored query. */
    function Query(): string
    {
      query
    }

    /** `new_from_prompt_template`: the request line and an opening `rust`
        fence, the code verbatim, then the closing fence and a newline. */
    static function NewFromPromptTemplate(codeToFix: string): (r: FixRustCode)
      ensures r.Query() == "Could you help me to fix this Rust code:\n```rust\n" + codeToFix + "\n```\n"
      ensures |r.Query()| == |codeToFix| + 54
      ensures r.Query()[..49] == FixCodeHeader
      ensures r.Query()[49..49 + |codeToFix|] == codeToFix
      ensures r.Query()[|r.Query()| - 5..] == FixCodeFooter
    {
      FixRustCode(Interpolate(FixCodeHeader, codeToFix, FixCodeFooter))
    }
  }

  /** Different code gives different queries. */
  lemma FixCodeTemplateInjective(a: string, b: string)
    ensures FixRustCode.NewFromPromptTemplate(a) == FixRustCode.NewFromPromptTemplate(b) <==> a == b
  {
    InterpolateInjective(FixCodeHeader, a, b, FixCodeFooter);
  }
}
