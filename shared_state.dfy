/** The dictionary the loops share: the presence flag, written by the presence
    monitor, and the posture flag, written by the posture loop. */
module Shared {

  class SharedState {
    var humanDetected: bool
    var badPosture: bool

    constructor (humanDetected: bool, badPosture: bool)
      ensures this.humanDetected == humanDetected && this.badPosture == badPosture
    {
      this.humanDetected := humanDetected;
      this.badPosture := badPosture;
    }
  }

}
