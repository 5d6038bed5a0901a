/**
 * Model-name canonicalisation and encoding dispatch of `tokenizer`
 * (PricingFunctions.py). Token counting itself belongs to the tiktoken
 * library; here it is the caller-supplied function `count`, applied to a
 * text and the encoding chosen for the model.
 */
module Tokenizer {
  import opened Wrappers

  /** The four models the pricing routines know. */
  datatype Model = ClaudeOpus4 | ClaudeSonnet4 | Gpt41 | OpenaiO3

  /** A tiktoken encoding: a named base encoding, or the one tiktoken picks for a model name. */
  datatype Encoding = Base(name: string) | ForModel(model: string)

  /** What `tokenizer` returns: the two token counts and the canonical model name. */
  datatype Tokens = Tokens(queryTokens: nat, responseTokens: nat, model: string)

  /** The label `tokenizer` returns in place of a model name it does not know. */
  const UnknownModel: string := "Unknown Model"

  /** The canonical spelling of each known model, as the pricing routines compare it. */
  function CanonicalName(m: Model): string
  {
    match m
    case ClaudeOpus4 => "claudeopus4"
    case ClaudeSonnet4 => "claudesonnet4"
    case Gpt41 => "gpt-4.1"
    case OpenaiO3 => "openaio3"
  }

  /** The encoding each model's tokens are counted with. */
  function EncodingOf(m: Model): Encoding
  {
    match m
    case ClaudeOpus4 | ClaudeSonnet4 => Base("cl100k_base")
    case Gpt41 | OpenaiO3 => ForModel("o3-12k")
  }

  predicate IsUpper(c: char)
  {
    'A' <= c <= 'Z'
  }

  /** ASCII lower-casing of one character. */
  function LowerChar(c: char): (r: char)
    ensures !IsUpper(r)
    ensures IsUpper(c) ==> 'a' <= r <= 'z' && r as int - 'a' as int == c as int - 'A' as int
    ensures r == ' ' <==> c == ' '
    ensures !IsUpper(c) ==> r == c
  {
    if IsUpper(c) then (c as int - 'A' as int + 'a' as int) as char else c
  }

  /** `s.replace(" ", "")`: every space character removed, the rest kept in order. */
  function StripSpaces(s: string): (r: string)
    ensures |r| <= |s|
    ensures ' ' !in r
    ensures ' ' !in s ==> r == s
  {
    if s == [] then []
    else (if s[0] == ' ' then [] else [s[0]]) + StripSpaces(s[1..])
  }

  /** `s.lower()`: every character lower-cased, position by position. */
  function ToLower(s: string): (r: string)
    ensures |r| == |s|
    ensures forall i :: 0 <= i < |s| ==> r[i] == LowerChar(s[i])
  {
    if s == [] then [] else [LowerChar(s[0])] + ToLower(s[1..])
  }

  /** The canonical form of a model name: spaces removed, then lower-cased. */
  function Canonicalize(model: string): (r: string)
    ensures |r| <= |model|
    ensures ' ' !in r
    ensures forall i :: 0 <= i < |r| ==> !IsUpper(r[i])
  {
    ToLower(StripSpaces(model))
  }

  /** The encoding dispatch on a canonical name; None is the "Unknown Model" branch. */
  function EncodingFor(name: string): (r: Option<Encoding>)
    ensures r.Some? <==> exists m :: name == CanonicalName(m)
    ensures forall m :: name == CanonicalName(m) ==> r == Some(EncodingOf(m))
  {
    if name == "claudeopus4" || name == "claudesonnet4" then
      assert name == CanonicalName(if name == "claudeopus4" then ClaudeOpus4 else ClaudeSonnet4);
      Some(Base("cl100k_base"))
    else if name == "gpt-4.1" || name == "openaio3" then
      assert name == CanonicalName(if name == "gpt-4.1" then Gpt41 else OpenaiO3);
      Some(ForModel("o3-12k"))
    else
      None
  }

  /**
   * `tokenizer(query, llm_response, model)`: canonicalise the model name,
   * pick its encoding and count the tokens of both texts; an unknown
   * model gives the sentinel (0, 0, "Unknown Model").
   */
  function Tokenize(query: string, llmResponse: string, model: string,
                    count: (string, Encoding) -> nat): (r: Tokens)
    ensures r.model == UnknownModel <==> forall m :: Canonicalize(model) != CanonicalName(m)
    ensures r.model == UnknownModel ==> r == Tokens(0, 0, UnknownModel)
    ensures forall m :: Canonicalize(model) == CanonicalName(m) ==>
              r == Tokens(count(query, EncodingOf(m)), count(llmResponse, EncodingOf(m)), CanonicalName(m))
  {
    var name := Canonicalize(model);
    match EncodingFor(name)
    case None => Tokens(0, 0, UnknownModel)
    case Some(enc) =>
      assert UnknownModel[7] == ' ';
      Tokens(count(query, enc), count(llmResponse, enc), name)
  }

  /** Each canonical model name is already in canonical form. */
  lemma CanonicalNameIsCanonical(m: Model)
    ensures Canonicalize(CanonicalName(m)) == CanonicalName(m)
  {
    var n := CanonicalName(m);
    assert ' ' !in n;
    assert forall i :: 0 <= i < |n| ==> !IsUpper(n[i]);
    ToLowerOfLower(n);
  }

  lemma ToLowerOfLower(s: string)
    requires forall i :: 0 <= i < |s| ==> !IsUpper(s[i])
    ensures ToLower(s) == s
  {
  }

  /** One character canonicalises to nothing if it is a space, and to its lower case otherwise. */
  lemma CanonicalizeChar(c: char)
    ensures Canonicalize([c]) == if c == ' ' then [] else [LowerChar(c)]
  {
    assert [c][1..] == [];
  }

  /** Removing spaces distributes over concatenation. */
  lemma {:induction false} StripSpacesConcat(a: string, b: string)
    ensures StripSpaces(a + b) == StripSpaces(a) + StripSpaces(b)
  {
    if a == [] {
      assert a + b == b;
    } else {
      assert (a + b)[0] == a[0];
      assert (a + b)[1..] == a[1..] + b;
      StripSpacesConcat(a[1..], b);
    }
  }

  /** Canonicalisation works piece by piece. */
  lemma CanonicalizeConcat(a: string, b: string)
    ensures Canonicalize(a + b) == Canonicalize(a) + Canonicalize(b)
  {
    StripSpacesConcat(a, b);
  }

  /** Canonicalising twice gives the same result as canonicalising once. */
  lemma CanonicalizeIdempotent(model: string)
    ensures Canonicalize(Canonicalize(model)) == Canonicalize(model)
  {
  }

  /** A space anywhere in a name makes no difference. */
  lemma SpaceInsensitive(a: string, b: string)
    ensures Canonicalize(a + " " + b) == Canonicalize(a + b)
  {
    CanonicalizeConcat(a + " ", b);
    CanonicalizeConcat(a, " ");
    CanonicalizeConcat(a, b);
  }

  /** The case of any one character makes no difference. */
  lemma CaseInsensitive(a: string, c: char, b: string)
    ensures Canonicalize(a + [c] + b) == Canonicalize(a + [LowerChar(c)] + b)
  {
    CanonicalizeConcat(a + [c], b);
    CanonicalizeConcat(a, [c]);
    CanonicalizeConcat(a + [LowerChar(c)], b);
    CanonicalizeConcat(a, [LowerChar(c)]);
  }

  /** A name without spaces is canonicalised by lower-casing it letter by letter. */
  lemma CanonicalizeSpaceFree(model: string, lowered: string)
    requires ' ' !in model
    requires |lowered| == |model|
    requires forall i :: 0 <= i < |model| ==> lowered[i] == LowerChar(model[i])
    ensures Canonicalize(model) == lowered
  {
  }

  /** Two spaces anywhere make no difference either. */
  lemma TwoSpacesInsensitive(a: string, b: string, c: string)
    ensures Canonicalize(a + " " + b + " " + c) == Canonicalize(a + b + c)
  {
    SpaceInsensitive(a + " " + b, c);
    SpaceInsensitive(a, b);
    CanonicalizeConcat(a + " " + b, c);
    CanonicalizeConcat(a + b, c);
  }

  lemma SpaceFreeClaudeOpus4()
    ensures Canonicalize("Claude" + "Opus" + "4") == CanonicalName(ClaudeOpus4)
  {
    assert "Claude" + "Opus" + "4" == "ClaudeOpus4";
    CanonicalizeSpaceFree("ClaudeOpus4", "claudeopus4");
  }

  /** "Claude Opus 4" names Claude Opus 4. */
  lemma ExampleClaudeOpus4()
    ensures Canonicalize("Claude Opus 4") == CanonicalName(ClaudeOpus4)
  {
    assert "Claude" + " " + "Opus" + " " + "4" == "Claude Opus 4";
    TwoSpacesInsensitive("Claude", "Opus", "4");
    SpaceFreeClaudeOpus4();
  }

  lemma SpaceFreeLowerCaseClaudeOpus4()
    ensures Canonicalize("claude" + "opus" + "4") == CanonicalName(ClaudeOpus4)
  {
    assert "claude" + "opus" + "4" == "claudeopus4";
    CanonicalNameIsCanonical(ClaudeOpus4);
  }

  /** "claude opus 4" names Claude Opus 4 as well. */
  lemma ExampleClaudeOpus4LowerCase()
    ensures Canonicalize("claude opus 4") == CanonicalName(ClaudeOpus4)
  {
    assert "claude" + " " + "opus" + " " + "4" == "claude opus 4";
    TwoSpacesInsensitive("claude", "opus", "4");
    SpaceFreeLowerCaseClaudeOpus4();
  }

  lemma SpaceFreeClaudeSonnet4()
    ensures Canonicalize("Claude" + "Sonnet" + "4") == CanonicalName(ClaudeSonnet4)
  {
    assert "Claude" + "Sonnet" + "4" == "ClaudeSonnet4";
    CanonicalizeSpaceFree("ClaudeSonnet4", "claudesonnet4");
  }

  /** "Claude Sonnet 4" names Claude Sonnet 4. */
  lemma ExampleClaudeSonnet4()
    ensures Canonicalize("Claude Sonnet 4") == CanonicalName(ClaudeSonnet4)
  {
    assert "Claude" + " " + "Sonnet" + " " + "4" == "Claude Sonnet 4";
    TwoSpacesInsensitive("Claude", "Sonnet", "4");
    SpaceFreeClaudeSonnet4();
  }

  /** "GPT-4.1" names GPT-4.1, with its hyphen and dot kept. */
  lemma ExampleGpt41()
    ensures Canonicalize("GPT-4.1") == CanonicalName(Gpt41)
  {
    CanonicalizeSpaceFree("GPT-4.1", "gpt-4.1");
  }

  /** "openaio3" names o3. */
  lemma ExampleOpenaiO3()
    ensures Canonicalize("openaio3") == CanonicalName(OpenaiO3)
  {
    CanonicalizeSpaceFree("openaio3", "openaio3");
  }

  lemma SpellingOpenai03()
    ensures Canonicalize("openai03") == "openai03"
  {
    CanonicalizeSpaceFree("openai03", "openai03");
  }

  lemma Openai03IsNoModel(m: Model)
    ensures "openai03" != CanonicalName(m)
  {
    assert "openai03"[6] == '0';
    if m == OpenaiO3 {
      assert CanonicalName(m)[6] == 'o';
    }
  }

  /** "openai03" (a zero for the letter o) is not a known model: the sentinel comes back. */
  lemma ExampleUnknown(query: string, llmResponse: string, count: (string, Encoding) -> nat)
    ensures Tokenize(query, llmResponse, "openai03", count) == Tokens(0, 0, UnknownModel)
  {
    SpellingOpenai03();
    forall m: Model
      ensures "openai03" != CanonicalName(m)
    {
      Openai03IsNoModel(m);
    }
  }
}
