/** The chunked-generation pipeline `generate_with_prompt(prompt, text)`. */
module Generation {
  import opened Text
  import opened Chunking

  /** The language model as the application sees it: tokenize (truncating to
      1024 tokens), generate greedily (no sampling, at most 250 new tokens) and
      decode. Greedy decoding makes it a fixed function of its input. */
  type Generator = string -> string

  /** The model input built for one chunk: the instruction, a blank line, the chunk. */
  function ModelInput(prompt: string, chunk: string): string
  {
    prompt + "\n\n" + chunk
  }

  /** One generator output per chunk, in chunk order. */
  function ChunkOutputs(gen: Generator, prompt: string, chunks: seq<string>): seq<string>
  {
    seq(|chunks|, i requires 0 <= i < |chunks| => gen(ModelInput(prompt, chunks[i])))
  }

  /** What `generate_with_prompt` returns: the per-chunk outputs joined with newlines. */
  function Generated(gen: Generator, prompt: string, text: string): string
  {
    Join(ChunkOutputs(gen, prompt, Chunks(text)), "\n")
  }

  /** The loop of `generate_with_prompt`: slice the text into windows, run the
      generator on each prompted window, collect the outputs, join them. */
  method GenerateWithPrompt(gen: Generator, prompt: string, text: string) returns (r: string)
    ensures r == Generated(gen, prompt, text)
  {
    var chunks := Chunks(text);
    var outputs: seq<string> := [];
    for i := 0 to |chunks|
      invariant |outputs| == i
      invariant forall j :: 0 <= j < i ==> outputs[j] == gen(ModelInput(prompt, chunks[j]))
    {
      var inputText := ModelInput(prompt, chunks[i]);
      outputs := outputs + [gen(inputText)];
    }
    assert outputs == ChunkOutputs(gen, prompt, chunks);
    r := Join(outputs, "\n");
  }

  /** Calling the pipeline twice with the same prompt and text gives the same
      string. The determinism comes from modelling the greedy generator as a
      function `gen`; the loop itself adds nothing to it. */
  method Regenerate(gen: Generator, prompt: string, text: string) returns (first: string, second: string)
    ensures first == second
  {
    first := GenerateWithPrompt(gen, prompt, text);
    second := GenerateWithPrompt(gen, prompt, text);
  }

  /** The empty transcript gives the empty string and never calls the generator. */
  lemma GeneratedEmpty(gen: Generator, prompt: string)
    ensures Generated(gen, prompt, "") == ""
  {
    ChunkCount("");
  }

  /** A text of at most one window is sent to the generator whole, once, and
      its output is returned as it is. */
  lemma GeneratedSingleWindow(gen: Generator, prompt: string, text: string)
    requires 0 < |text| <= Window
    ensures Generated(gen, prompt, text) == gen(prompt + "\n\n" + text)
  {
    ChunkAt(text, 0);
    assert |Chunks(text)| == 1;
    assert Chunks(text)[0] == text[0..|text|] == text;
    assert Chunks(text) == [text];
    assert ChunkOutputs(gen, prompt, [text]) == [gen(ModelInput(prompt, text))];
  }

  /** The output has one part per window, and part k is the generator applied
      to the prompt, a blank line and the k-th window of 900 characters. */
  lemma GeneratedParts(gen: Generator, prompt: string, text: string, k: nat)
    ensures |ChunkOutputs(gen, prompt, Chunks(text))| == (|text| + Window - 1) / Window
    ensures k < |ChunkOutputs(gen, prompt, Chunks(text))| ==>
              ChunkOutputs(gen, prompt, Chunks(text))[k]
              == gen(prompt + "\n\n" + text[Window * k .. if Window * k + Window < |text| then Window * k + Window else |text|])
  {
    ChunkAt(text, k);
    if k < |Chunks(text)| {
      assert ChunkOutputs(gen, prompt, Chunks(text))[k] == gen(ModelInput(prompt, Chunks(text)[k]));
    }
  }

  /** Order is preserved: when the first text fills whole windows, the output
      for the concatenation is the output for the first text, a newline, and
      the output for the second. */
  lemma GeneratedAppend(gen: Generator, prompt: string, t1: string, t2: string)
    requires |t1| % Window == 0 && t1 != "" && t2 != ""
    ensures Generated(gen, prompt, t1 + t2) == Generated(gen, prompt, t1) + "\n" + Generated(gen, prompt, t2)
  {
    ChunksAppend(t1, t2);
    ChunkCount(t1);
    ChunkCount(t2);
    var c1, c2 := Chunks(t1), Chunks(t2);
    assert ChunkOutputs(gen, prompt, c1 + c2) == ChunkOutputs(gen, prompt, c1) + ChunkOutputs(gen, prompt, c2);
    JoinSplit(ChunkOutputs(gen, prompt, c1), ChunkOutputs(gen, prompt, c2), "\n");
  }
}
