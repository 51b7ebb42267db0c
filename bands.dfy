/**
 * The proficiency bands shared by the skills section (`getSkillLevel`) and the
 * tech-stack section (`getProficiencyLevel`): the same three thresholds, 90,
 * 80 and 70, and the same labels and colours.
 */
module Proficiency {
  datatype Band = Beginner | Intermediate | Advanced | Expert

  const ExpertFrom: int := 90
  const AdvancedFrom: int := 80
  const IntermediateFrom: int := 70

  /** Position of a band in the order Beginner < Intermediate < Advanced < Expert. */
  function Rank(b: Band): nat {
    match b
    case Beginner => 0
    case Intermediate => 1
    case Advanced => 2
    case Expert => 3
  }

  function BandOf(score: int): (b: Band)
    ensures b == Expert <==> score >= ExpertFrom
    ensures b == Advanced <==> AdvancedFrom <= score < ExpertFrom
    ensures b == Intermediate <==> IntermediateFrom <= score < AdvancedFrom
    ensures b == Beginner <==> score < IntermediateFrom
  {
    if score >= ExpertFrom then Expert
    else if score >= AdvancedFrom then Advanced
    else if score >= IntermediateFrom then Intermediate
    else Beginner
  }

  /** A higher score never receives a lower band. */
  lemma BandMonotone(a: int, b: int)
    requires a <= b
    ensures Rank(BandOf(a)) <= Rank(BandOf(b))
  {
  }

  function BandLabel(b: Band): (s: string)
    ensures s != []
  {
    match b
    case Beginner => "Beginner"
    case Intermediate => "Intermediate"
    case Advanced => "Advanced"
    case Expert => "Expert"
  }

  function BandColor(b: Band): string {
    match b
    case Beginner => "text-gray-500"
    case Intermediate => "text-yellow-500"
    case Advanced => "text-blue-500"
    case Expert => "text-green-500"
  }

  /** Different bands are told apart by label and by colour. */
  lemma BandPresentationInjective(a: Band, b: Band)
    requires BandLabel(a) == BandLabel(b) || BandColor(a) == BandColor(b)
    ensures a == b
  {
  }
}
