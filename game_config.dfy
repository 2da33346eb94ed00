/** The game constants of src/config/gameConfig.js that feed the round logic. */
module GameConfig {

  /** Delay between a guess and the opponent draw (CHECKING_DELAY). */
  const CheckingDelayMs: nat := 3000

  /** Length of the authored cat animation (ANIMATION_DURATION). */
  const AnimationDurationMs: nat := 9000

  /** Whether sound starts enabled (SOUND.enabled). */
  const SoundEnabledByDefault: bool := true

  /** A guess, or the opponent's draw (CHOICES). */
  datatype Choice = Dead | Alive {
    function Name(): string {
      match this
      case Dead => "dead"
      case Alive => "alive"
    }
  }

  /** The outcome of a round (RESULTS). */
  datatype Outcome = Win | Lose {
    function Name(): string {
      match this
      case Win => "win"
      case Lose => "lose"
    }
  }

  /** The two triggerable animations, named by their engine input (ANIMATIONS). */
  datatype Animation = Mouse | ButtonPress {
    function InputName(): string {
      match this
      case Mouse => "mouse"
      case ButtonPress => "button press"
    }
  }
}
