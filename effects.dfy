/**
 * The outbound calls the simulation makes to its audio and message
 * collaborators, recorded in order as intents.
 */
module Effects {

  datatype Effect =
    | PaddleHitSound
    | BlockHitSound
    | DifficultyUpSound
    | GameOverSound
    | LevelMessage     // "Level Increased!", hidden again after 2000 ms
    | GameOverMessage  // shown until the 3500 ms callback returns home
}
