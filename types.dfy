/** The record shapes shared by the form, the requester and the app (types.ts). */
module Types {
  import opened Wrappers

  /** The string-literal union `'male' | 'female' | 'other'`. */
  datatype Gender = Male | Female | Other

  /** The literal each gender is written as in TypeScript. */
  function GenderName(g: Gender): (s: string)
    ensures s == "male" || s == "female" || s == "other"
  {
    match g
    case Male => "male"
    case Female => "female"
    case Other => "other"
  }

  /** Reading a gender literal back; anything else is not a `Gender`. */
  function ParseGender(s: string): (g: Option<Gender>)
    ensures g.Some? <==> (s == "male" || s == "female" || s == "other")
    ensures g.Some? ==> GenderName(g.value) == s
  {
    if s == "male" then Some(Male)
    else if s == "female" then Some(Female)
    else if s == "other" then Some(Other)
    else None
  }

  lemma GenderNameRoundTrip(g: Gender)
    ensures ParseGender(GenderName(g)) == Some(g)
  {
    match g
    case Male =>
    case Female =>
    case Other =>
  }

  /** What the form submits; an empty `birthTime` means "unknown". */
  datatype UserInput = UserInput(birthDate: string, birthTime: string, gender: Gender, name: string)

  datatype TimelineEvent = TimelineEvent(period: string, description: string)

  /** The decoded fortune; `deityImage` is the optional data URI. */
  datatype FortuneResult = FortuneResult(
    deityName: string,
    deityTitle: string,
    deityDescription: string,
    deityVisualDescription: string,
    deityImage: Option<string>,
    essence: string,
    love: string,
    work: string,
    destiny: string,
    timeline: seq<TimelineEvent>,
    luckyColor: string,
    guardianItem: string,
    soulConnection: string)

  datatype LoadingState = LoadingState(isLoading: bool, message: string)
}
