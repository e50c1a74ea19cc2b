// The heads-up display: the counters the game mirrors into it, and the hit-tests of its
// two buttons (internal/hud/hud.go). Drawing is not modelled.
module Hud {

  class Hud {
    var towersBuilt: int
    var towersLimit: int
    var enemiesDefeated: int
    var currentWave: int
    var waveActive: bool
    var enemiesInWave: int          // size of the current wave, or of the next one
    var enemiesKilledInWave: int
    var lives: int
    var coins: int

    // The button rectangles are set by NewHUD and never written again.
    const buttonX: real := 620.0
    const buttonY: real := 35.0
    const buttonWidth: real := 150.0
    const buttonHeight: real := 50.0
    const shopButtonX: real := 620.0
    const shopButtonY: real := 90.0
    const shopButtonWidth: real := 150.0
    const shopButtonHeight: real := 25.0

    /** NewHUD: no towers, wave 0 not yet started, a first wave of 3, 10 lives, 50 coins. */
    constructor (towerLimit: int)
      ensures towersBuilt == 0 && towersLimit == towerLimit && enemiesDefeated == 0
      ensures currentWave == 0 && !waveActive && enemiesInWave == 3 && enemiesKilledInWave == 0
      ensures lives == 10 && coins == 50
    {
      towersBuilt, towersLimit, enemiesDefeated := 0, towerLimit, 0;
      currentWave, waveActive, enemiesInWave, enemiesKilledInWave := 0, false, 3, 0;
      lives, coins := 10, 50;
    }

    /** Back to a new game's counters: no towers, wave 0 not started, a first wave of 3,
        10 lives. The tower limit and the coins are kept. */
    method Reset()
      modifies this`towersBuilt, this`enemiesDefeated, this`currentWave, this`waveActive
      modifies this`enemiesInWave, this`enemiesKilledInWave, this`lives
      ensures towersBuilt == 0 && enemiesDefeated == 0 && currentWave == 0 && !waveActive
      ensures enemiesInWave == 3 && enemiesKilledInWave == 0 && lives == 10
    {
      towersBuilt, enemiesDefeated, currentWave := 0, 0, 0;
      waveActive, enemiesInWave, enemiesKilledInWave := false, 3, 0;
      lives := 10;
    }

    /** Whether (x, y) lies on the "Next Wave" button, borders included. */
    predicate IsButtonClicked(x: int, y: int): (r: bool)
      ensures r <==> 620 <= x <= 770 && 35 <= y <= 85
    {
      var fx, fy := x as real, y as real;
      fx >= buttonX && fx <= buttonX + buttonWidth && fy >= buttonY && fy <= buttonY + buttonHeight
    }

    /** Whether (x, y) lies on the "SHOP" button, borders included. */
    predicate IsShopButtonClicked(x: int, y: int): (r: bool)
      ensures r <==> 620 <= x <= 770 && 90 <= y <= 115
    {
      var fx, fy := x as real, y as real;
      fx >= shopButtonX && fx <= shopButtonX + shopButtonWidth
      && fy >= shopButtonY && fy <= shopButtonY + shopButtonHeight
    }

    /** The two buttons do not overlap: no click hits both. */
    lemma ButtonsDisjoint(x: int, y: int)
      ensures !(IsButtonClicked(x, y) && IsShopButtonClicked(x, y))
    {
    }
  }
}
