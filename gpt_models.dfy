/** The model-name strings of the OpenAI documentation and the default PDF directory. */
module ModelStrings {
  const Gpt35Turbo: string := "gpt-3.5-turbo"
  const Gpt35Turbo0613: string := "gpt-3.5-turbo-0613"
  const Gpt35Turbo16k: string := "gpt-3.5-turbo-16k"
  const Gpt4: string := "gpt-4"
  const Gpt40314: string := "gpt-4-0314"
  const Gpt40613: string := "gpt-4-0613"
  const Gpt432k: string := "gpt-4-32k"
  const Gpt432k0314: string := "gpt-4-32k-0314"

  /** Directory searched for PDFs when the caller names none. */
  const DefaultPdfDir: string := "./pdfs/"

  function AllModelStrings(): (ss: seq<string>)
    ensures |ss| == 8
  {
    [Gpt35Turbo, Gpt35Turbo0613, Gpt35Turbo16k, Gpt4, Gpt40314, Gpt40613, Gpt432k, Gpt432k0314]
  }

  /** The eight model strings are pairwise distinct. */
  lemma ModelStringsDistinct()
    ensures forall i, j :: 0 <= i < j < |AllModelStrings()| ==> AllModelStrings()[i] != AllModelStrings()[j]
  {
  }
}

/** The enumeration of chat models and its string codec. */
module GptModels {
  import MS = ModelStrings
  import opened Wrappers

  datatype GptModel =
    | Gpt35Turbo
    | Gpt35Turbo16k
    | Gpt35Turbo0613
    | Gpt4
    | Gpt40314
    | Gpt432k
    | Gpt432k0314
    | Gpt40613

  /** The model's name in the OpenAI documentation. */
  function ToString(m: GptModel): (s: string)
    ensures s in MS.AllModelStrings()
  {
    match m
    case Gpt35Turbo => MS.Gpt35Turbo
    case Gpt35Turbo0613 => MS.Gpt35Turbo0613
    case Gpt35Turbo16k => MS.Gpt35Turbo16k
    case Gpt4 => MS.Gpt4
    case Gpt40613 => MS.Gpt40613
    case Gpt40314 => MS.Gpt40314
    case Gpt432k => MS.Gpt432k
    case Gpt432k0314 => MS.Gpt432k0314
  }

  /**
   * Parses a model name. The source panics on any other string; here that
   * case is `None`.
   */
  function FromStr(s: string): (r: Option<GptModel>)
    ensures r.Some? ==> ToString(r.value) == s
    ensures r.None? <==> s !in MS.AllModelStrings()
  {
    if s == MS.Gpt35Turbo then Some(Gpt35Turbo)
    else if s == MS.Gpt35Turbo16k then Some(Gpt35Turbo16k)
    else if s == MS.Gpt35Turbo0613 then Some(Gpt35Turbo0613)
    else if s == MS.Gpt4 then Some(Gpt4)
    else if s == MS.Gpt40314 then Some(Gpt40314)
    else if s == MS.Gpt432k then Some(Gpt432k)
    else if s == MS.Gpt432k0314 then Some(Gpt432k0314)
    else if s == MS.Gpt40613 then Some(Gpt40613)
    else None
  }

  /** Parsing the name of a model gives back that model. */
  lemma FromStrToString(m: GptModel)
    ensures FromStr(ToString(m)) == Some(m)
  {
  }

  /** Distinct models have distinct names. */
  lemma ToStringInjective(m1: GptModel, m2: GptModel)
    ensures ToString(m1) == ToString(m2) ==> m1 == m2
  {
    FromStrToString(m1);
    FromStrToString(m2);
  }

  /** Printing a parsed name gives back the name, for every valid name. */
  lemma ToStringFromStr(s: string)
    requires s in MS.AllModelStrings()
    ensures FromStr(s).Some? && ToString(FromStr(s).value) == s
  {
  }

  /**
   * Serialization writes `ToString(m)` as a JSON string and deserialization
   * reads it with `FromStr`, so a model name survives a JSON round trip.
   */
  function Serialize(m: GptModel): string { ToString(m) }

  function Deserialize(s: string): Option<GptModel> { FromStr(s) }

  lemma SerdeRoundTrip(m: GptModel)
    ensures Deserialize(Serialize(m)) == Some(m)
  {
    FromStrToString(m);
  }
}
