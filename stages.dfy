/** The three stages a step runs through, and their printed names. */
module Stages {

  datatype Stage = Pre | Main | Post {
    /** The value of the Go constant (`stepStagePre` is `iota`, that is 0). */
    function Code(): int {
      match this
      case Pre => 0
      case Main => 1
      case Post => 2
    }
  }

  /** `stepStage.String` over every integer the Go type can hold. */
  function StageString(code: int): (r: string)
    ensures r == "Unknown" <==> !(0 <= code <= 2)
  {
    if code == 0 then "Pre"
    else if code == 1 then "Main"
    else if code == 2 then "Post"
    else "Unknown"
  }

  /** The three stages print differently, and none of them prints as "Unknown". */
  lemma StageStringDistinguishesStages(a: Stage, b: Stage)
    ensures StageString(a.Code()) != "Unknown"
    ensures StageString(a.Code()) == StageString(b.Code()) <==> a == b
  {
  }
}
