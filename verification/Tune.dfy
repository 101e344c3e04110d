/** The feature list of a tune: the parallel arrays of the program as one sequence of records. */
module Tune {

  datatype Kind =
    | Note | TNote | Rest | OldTie | Tie
    | ChordOn | ChordOff | ChordOffEx
    | SingleBar | DoubleBar | BarRep | RepBar | DoubleRep | PlayOnRep | ThickThin | ThinThick
    | Part | Voice
    | Channel | Transpose | GTranspose | RTranspose
    | GraceOn | GraceOff | SetGrace
    | Arpeggio | Effect
    | Plain  // any other feature without effect on the notes played; changes of tempo are left out

  datatype Feature = Feature(kind: Kind, pitch: int, num: int, denom: int,
                             line: int,        // pitchline: the note before accidentals
                             bend: int,        // bentpitch
                             vel: int,         // the velocity note_beat works out
                             deco: int,        // decotype
                             passes: string)   // the text of a variant ending

  type Features = seq<Feature>

  /** Lengths that writetrack divides by. */
  predicate Timed(f: Feature) {
    f.kind.Note? || f.kind.TNote? || f.kind.Rest? || f.kind.ChordOff? || f.kind.ChordOffEx?
  }

  ghost predicate LengthsOk(t: Features) {
    forall k :: 0 <= k < |t| && Timed(t[k]) ==> t[k].denom > 0
  }
}
