/** The lifecycle stages of a star (the `EStarLifecycleStage` enumeration). */
module Star {

  datatype LifecycleStage =
    | FailedStar
    | MolecularCloud
    | Protostar
    | PreMainSequence
    | MainSequence
    | PostMainSequence
    | Subgiant
    | Supergiant
    | RedGiantBranch
    | HorizontalBranch
    | AsymptoticGiantBranch
    | FinalStage
  {
    /** The value `EStarLifecycleStage` gives each stage, from -1 to 10. */
    function Value(): (v: int)
      ensures -1 <= v <= 10
      ensures v == -1 <==> this == FailedStar
    {
      match this
      case FailedStar => -1
      case MolecularCloud => 0
      case Protostar => 1
      case PreMainSequence => 2
      case MainSequence => 3
      case PostMainSequence => 4
      case Subgiant => 5
      case Supergiant => 6
      case RedGiantBranch => 7
      case HorizontalBranch => 8
      case AsymptoticGiantBranch => 9
      case FinalStage => 10
    }
  }

  /** No two stages share a value, so the value identifies the stage. */
  lemma ValuesAreDistinct(s: LifecycleStage, t: LifecycleStage)
    ensures s.Value() == t.Value() ==> s == t
  {
  }
}
