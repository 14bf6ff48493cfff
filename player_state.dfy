/** The three-way playback phase shared by the player and its progress clock
    (the `PlayerState` union of motion/variants.ts). */
module PlayerState {

  datatype Mode = Paused | Playing | Loading

}
