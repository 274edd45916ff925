/** The practice setting every part of the program is keyed by: the
    interlocutor's personality and the scenario. Both reach the program as
    strings (`personality`, `scenario.key`); each lookup table falls back to
    its neutral or default entry for a name it does not hold. */
module Setting {

  datatype Option<T> = None | Some(value: T)

  /** The personalities the program names. */
  datatype Persona =
    | Tough | Friendly | Neutral | Skeptical | Supportive
    | Intimidating | Chatty | Empathetic

  /** The key under which a personality is looked up. */
  function PersonaName(p: Persona): string {
    match p
    case Tough => "tough"
    case Friendly => "friendly"
    case Neutral => "neutral"
    case Skeptical => "skeptical"
    case Supportive => "supportive"
    case Intimidating => "intimidating"
    case Chatty => "chatty"
    case Empathetic => "empathetic"
  }

  /** The personality a name stands for, if any. */
  function PersonaOf(name: string): (r: Option<Persona>)
    ensures r.Some? ==> PersonaName(r.value) == name
  {
    if name == "tough" then Some(Tough)
    else if name == "friendly" then Some(Friendly)
    else if name == "neutral" then Some(Neutral)
    else if name == "skeptical" then Some(Skeptical)
    else if name == "supportive" then Some(Supportive)
    else if name == "intimidating" then Some(Intimidating)
    else if name == "chatty" then Some(Chatty)
    else if name == "empathetic" then Some(Empathetic)
    else None
  }

  /** Looking a personality up by its own key finds it. */
  lemma PersonaRoundTrip(p: Persona)
    ensures PersonaOf(PersonaName(p)) == Some(p)
  {
  }

  /** `table[personality] || table.neutral` over a table holding all eight. */
  function PersonaOr(name: string): (p: Persona)
    ensures PersonaOf(name) == Some(p) || (PersonaOf(name) == None && p == Neutral)
  {
    match PersonaOf(name)
    case Some(p) => p
    case None => Neutral
  }

  /** `table[personality] || table.neutral` over the engine's tables, which
      hold only the first five personalities. */
  function ResponseGroup(name: string): (p: Persona)
    ensures p in {Tough, Friendly, Neutral, Skeptical, Supportive}
    ensures p != Neutral ==> PersonaOf(name) == Some(p)
    ensures PersonaOf(name) == Some(Neutral) ==> p == Neutral
    ensures PersonaOf(name).Some? && PersonaOf(name).value in {Tough, Friendly, Skeptical, Supportive} ==>
              p == PersonaOf(name).value
  {
    match PersonaOf(name)
    case Some(Tough) => Tough
    case Some(Friendly) => Friendly
    case Some(Skeptical) => Skeptical
    case Some(Supportive) => Supportive
    case _ => Neutral
  }

  /** A scenario of the catalogue, as far as the program reads it. */
  datatype Scenario = Scenario(key: string, title: string, description: string)

  /** The scenario keys some part of the program branches on. */
  datatype Kind = JobInterview | Networking | Conflict | CustomerService | PublicSpeaking | OtherKind

  function KindKey(k: Kind): string {
    match k
    case JobInterview => "jobInterview"
    case Networking => "networking"
    case Conflict => "conflict"
    case CustomerService => "customerService"
    case PublicSpeaking => "publicSpeaking"
    case OtherKind => ""
  }

  /** The branch `scenario?.key` selects; no scenario selects none. */
  function KindOf(scenario: Option<Scenario>): (k: Kind)
    ensures k != OtherKind ==> scenario.Some? && scenario.value.key == KindKey(k)
  {
    if scenario.None? then OtherKind
    else
      var key := scenario.value.key;
      if key == "jobInterview" then JobInterview
      else if key == "networking" then Networking
      else if key == "conflict" then Conflict
      else if key == "customerService" then CustomerService
      else if key == "publicSpeaking" then PublicSpeaking
      else OtherKind
  }

  /** A scenario carrying a branch's key selects that branch. */
  lemma KindRoundTrip(k: Kind, title: string, description: string)
    requires k != OtherKind
    ensures KindOf(Some(Scenario(KindKey(k), title, description))) == k
  {
  }
}
