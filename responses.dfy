/** The parts of a chat-completion response the core reads, and its cost in cents. */
module Responses {
  import opened Wrappers
  import opened GptModels

  /** Token usage reported by the API (32-bit signed counts in the source). */
  datatype Usage = Usage(promptTokens: int, completionTokens: int, totalTokens: int)

  /** `MessageRole`; a message built with `Default` has role `User`. */
  datatype Role = User | System | Assistant

  datatype Message = Message(role: Role, content: Option<string>)

  datatype Choice = Choice(index: int, message: Message)

  datatype Response = Response(
    id: string,
    object: string,
    created: int,
    model: string,
    choices: seq<Choice>,
    usage: Usage)

  /** The rate pair (prompt, completion), per 1000 tokens, that `cost` uses. */
  function ResponseRates(m: GptModel): (rates: (real, real))
  {
    match m
    case Gpt35Turbo => (0.0015, 0.002)
    case Gpt35Turbo16k => (0.003, 0.004)
    case Gpt35Turbo0613 => (0.0015, 0.002)
    case Gpt4 => (0.03, 0.06)
    case Gpt40314 => (0.03, 0.06)
    case Gpt40613 => (0.03, 0.06)
    case Gpt432k => (0.06, 0.12)
    case Gpt432k0314 => (0.06, 0.12)
  }

  /** `ChatCompletionResponse::cost`: the price of this response in cents. */
  function Cost(r: Response, m: GptModel): real
  {
    var (pr, cr) := ResponseRates(m);
    (r.usage.promptTokens as real * pr / 1000.0 + r.usage.completionTokens as real * cr / 1000.0) * 100.0
  }
}

/** The per-model price schedule and the cost formula. */
module Pricing {
  import opened GptModels
  import opened Responses

  /** `compute_cost`'s rate table: (prompt, completion) price per 1000 tokens. */
  function CostFactors(m: GptModel): (rates: (real, real))
    ensures 0.0 < rates.0 < rates.1
  {
    match m
    case Gpt35Turbo => (0.0015, 0.002)
    case Gpt35Turbo16k => (0.003, 0.004)
    case Gpt35Turbo0613 => (0.0015, 0.002)
    case Gpt4 => (0.03, 0.06)
    case Gpt40314 => (0.03, 0.06)
    case Gpt40613 => (0.03, 0.06)
    case Gpt432k => (0.06, 0.12)
    case Gpt432k0314 => (0.06, 0.12)
  }

  /** Prompt and completion tokens priced independently, per 1000 tokens. */
  function ComputeCost(u: Usage, m: GptModel): real
  {
    u.promptTokens as real * CostFactors(m).0 / 1000.0
      + u.completionTokens as real * CostFactors(m).1 / 1000.0
  }

  /** No tokens, no cost. */
  lemma ComputeCostZero(m: GptModel, total: int)
    ensures ComputeCost(Usage(0, 0, total), m) == 0.0
  {
  }

  /** Non-negative counts cost a non-negative amount. */
  lemma ComputeCostNonNegative(u: Usage, m: GptModel)
    requires u.promptTokens >= 0 && u.completionTokens >= 0
    ensures ComputeCost(u, m) >= 0.0
  {
    var (pr, cr) := CostFactors(m);
    assert u.promptTokens as real * pr >= 0.0;
    assert u.completionTokens as real * cr >= 0.0;
  }

  /** More prompt tokens or more completion tokens never cost less. */
  lemma ComputeCostMonotone(u1: Usage, u2: Usage, m: GptModel)
    requires u1.promptTokens <= u2.promptTokens
    requires u1.completionTokens <= u2.completionTokens
    ensures ComputeCost(u1, m) <= ComputeCost(u2, m)
  {
    var (pr, cr) := CostFactors(m);
    assert (u2.promptTokens - u1.promptTokens) as real * pr >= 0.0;
    assert (u2.completionTokens - u1.completionTokens) as real * cr >= 0.0;
  }

  /** The response's own rate table is the same as `compute_cost`'s. */
  lemma ResponseRatesAgree(m: GptModel)
    ensures ResponseRates(m) == CostFactors(m)
  {
  }

  /** `cost` is `compute_cost` expressed in cents. */
  lemma CostInCents(r: Response, m: GptModel)
    ensures Cost(r, m) == 100.0 * ComputeCost(r.usage, m)
  {
    ResponseRatesAgree(m);
  }

  /** `cost` reads only the prompt and completion counts, never `total_tokens`. */
  lemma CostIgnoresTotal(r: Response, total: int, m: GptModel)
    ensures Cost(r.(usage := r.usage.(totalTokens := total)), m) == Cost(r, m)
  {
  }

  /** For the same usage, each 32k model costs twice its gpt-4 counterpart. */
  lemma Cost32kDoubleGpt4(r: Response)
    ensures Cost(r, Gpt432k) == 2.0 * Cost(r, Gpt4)
    ensures Cost(r, Gpt432k0314) == 2.0 * Cost(r, Gpt40314)
  {
  }
}
