/**
 * Powers (src/app/models/powers/power.model.ts) and the list of powers the
 * game ships with (src/app/models/powers/list-power.ts).
 */
module PowerModel {
  import opened Wrappers

  /** A spell: mana cost per cast and cooldown in seconds; the last two fields are filled by the view. */
  datatype Power = Power(
    id: string,
    name: string,
    description: string,
    imageUrl: Option<string>,
    doesAppearInGame: bool,
    bought: bool,
    manaCost: real,
    cooldownSeconds: real,
    isOnCooldown: Option<bool>,
    cooldownRemainingSeconds: Option<real>)

  /** Double damage for a minute, then the weakness spell. */
  const LIST_POWER: seq<Power> := [
    Power("power", "힘", "Dégâts ×2 pendant 1 minute. Coût en mana à chaque lancement.",
          Some("assets/imgUpgrades/swords/Sword1.png"), false, false, 60.0, 120.0, None, None),
    Power("weakness", "약점",
          "Baisse le montant total de combo nécessaire pour activer le buff et baisse la vitesse de redescente.",
          Some("assets/imgUpgrades/swords/Sword1.png"), false, false, 200.0, 300.0, None, None)
  ]

  /**
   * Whether a power shows: against the magician's level when both that level
   * and the power's required level are known, otherwise the power's own flag.
   * The currency argument plays no part.
   */
  function GetPowerDoesAppearInGame(power: Power, clicks: real, powerWorkerLevel: Option<int>,
                                    levelRequiredForPower: Option<int>): (r: bool)
    ensures levelRequiredForPower.Some? && powerWorkerLevel.Some?
            ==> (r <==> powerWorkerLevel.value >= levelRequiredForPower.value)
    ensures levelRequiredForPower.None? || powerWorkerLevel.None? ==> r == power.doesAppearInGame
  {
    if levelRequiredForPower.Some? && powerWorkerLevel.Some? then
      powerWorkerLevel.value >= levelRequiredForPower.value
    else
      power.doesAppearInGame
  }

  /** The answer never depends on the currency. */
  lemma PowerAppearanceIgnoresClicks(power: Power, c1: real, c2: real, level: Option<int>, required: Option<int>)
    ensures GetPowerDoesAppearInGame(power, c1, level, required) == GetPowerDoesAppearInGame(power, c2, level, required)
  {
  }
}
