/**
  The chord voicing calculator: note names to pitch classes, a table of
  hand-picked open chords that takes priority, and otherwise a barre chord on
  the 6th string (E shape) or the 5th string (A shape), whichever sits lower on
  the neck, looked up in a table of movable shapes.
*/
module ChordLogic {

  import opened Wrappers

  /** The twelve pitch classes, sharps only, from C. */
  const Notes: seq<string> := ["C", "C#", "D", "D#", "E", "F", "F#", "G", "G#", "A", "A#", "B"]

  /** The qualities the chord library offers. */
  const Qualities: seq<string> := ["Major", "Minor", "7", "Maj7", "m7"]

  /** The flat spellings the note map also accepts, with their pitch classes. */
  const Flats: map<string, int> := map["Db" := 1, "Eb" := 3, "Gb" := 6, "Ab" := 8, "Bb" := 10]

  /** Note name to pitch class: every sharp name at its position, plus the flats. */
  const NoteMap: map<string, int> :=
    map["C" := 0, "C#" := 1, "D" := 2, "D#" := 3, "E" := 4, "F" := 5,
        "F#" := 6, "G" := 7, "G#" := 8, "A" := 9, "A#" := 10, "B" := 11,
        "Db" := 1, "Eb" := 3, "Gb" := 6, "Ab" := 8, "Bb" := 10]

  /** Pitch classes of the open 6th (low E) and 5th (A) strings. */
  const LowE: int := 4
  const OpenA: int := 9

  /** One string of a shape: a fret number (-1 mute, 0 open, else relative fret),
      or an entry the table gives as a function rather than a number. */
  datatype Fret = Fret(n: int) | Computed

  /** A barre: just its fret, or its fret and the strings it spans. */
  datatype Barre = BarreAt(fret: int) | BarreSpan(fret: int, from: int, to: int)

  /** A table entry: frets and fingers from the 6th string to the 1st. */
  datatype Shape = Shape(frets: seq<Fret>, fingers: seq<int>, barre: Option<Barre>)

  /** The voicing handed to the diagram. */
  datatype Voicing = Voicing(frets: seq<Fret>, fingers: seq<int>, baseFret: int,
                             barre: Option<Barre>, name: string)

  function Frets(fs: seq<int>): seq<Fret>
  {
    seq(|fs|, i requires 0 <= i < |fs| => Fret(fs[i]))
  }

  /** Movable shapes, keyed by root string and quality. */
  const BarreShapes: map<string, Shape> := map[
    "6_Major" := Shape(Frets([0, 2, 2, 1, 0, 0]), [1, 3, 4, 2, 1, 1], None),
    "6_Minor" := Shape(Frets([0, 2, 2, 0, 0, 0]), [1, 3, 4, 1, 1, 1], None),
    "6_7" := Shape(Frets([0, 2, 0, 1, 0, 0]), [1, 3, 1, 2, 1, 1], None),
    "6_m7" := Shape(Frets([0, 2, 0, 0, 0, 0]), [1, 3, 1, 1, 1, 1], None),
    "6_Maj7" := Shape([Fret(0), Computed, Fret(1), Fret(2), Fret(0), Computed], [1, 0, 2, 3, 4, 0], None),
    "5_Major" := Shape(Frets([-1, 0, 2, 2, 2, 0]), [0, 1, 2, 3, 4, 1], None),
    "5_Minor" := Shape(Frets([-1, 0, 2, 2, 1, 0]), [0, 1, 3, 4, 2, 1], None),
    "5_7" := Shape(Frets([-1, 0, 2, 0, 2, 0]), [0, 1, 3, 1, 4, 1], None),
    "5_m7" := Shape(Frets([-1, 0, 2, 0, 1, 0]), [0, 1, 3, 1, 2, 1], None),
    "5_Maj7" := Shape(Frets([-1, 0, 2, 1, 2, 0]), [0, 1, 3, 2, 4, 1], None)
  ]

  /** Hand-picked open chords, keyed by root and quality. */
  const OpenChords: map<string, Shape> := map[
    "C_Major" := Shape(Frets([-1, 3, 2, 0, 1, 0]), [0, 3, 2, 0, 1, 0], None),
    "A_Major" := Shape(Frets([-1, 0, 2, 2, 2, 0]), [0, 0, 1, 2, 3, 0], None),
    "G_Major" := Shape(Frets([3, 2, 0, 0, 0, 3]), [2, 1, 0, 0, 0, 3], None),
    "E_Major" := Shape(Frets([0, 2, 2, 1, 0, 0]), [0, 2, 3, 1, 0, 0], None),
    "D_Major" := Shape(Frets([-1, -1, 0, 2, 3, 2]), [0, 0, 0, 1, 3, 2], None),
    "A_Minor" := Shape(Frets([-1, 0, 2, 2, 1, 0]), [0, 0, 2, 3, 1, 0], None),
    "E_Minor" := Shape(Frets([0, 2, 2, 0, 0, 0]), [0, 2, 3, 0, 0, 0], None),
    "D_Minor" := Shape(Frets([-1, -1, 0, 2, 3, 1]), [0, 0, 0, 2, 3, 1], None),
    "C_7" := Shape(Frets([-1, 3, 2, 3, 1, 0]), [0, 3, 2, 4, 1, 0], None),
    "A_7" := Shape(Frets([-1, 0, 2, 0, 2, 0]), [0, 0, 2, 0, 3, 0], None),
    "G_7" := Shape(Frets([3, 2, 0, 0, 0, 1]), [3, 2, 0, 0, 0, 1], None),
    "E_7" := Shape(Frets([0, 2, 0, 1, 0, 0]), [0, 2, 0, 1, 0, 0], None),
    "B_7" := Shape(Frets([-1, 2, 1, 2, 0, 2]), [0, 2, 1, 3, 0, 4], None),
    "D_7" := Shape(Frets([-1, -1, 0, 2, 1, 2]), [0, 0, 0, 2, 1, 3], None),
    "F_Major" := Shape(Frets([1, 3, 3, 2, 1, 1]), [1, 3, 4, 2, 1, 1], Some(BarreAt(1)))
  ]

  /** The pitch class of a note name, if the name is known. */
  function GetNoteIndex(noteName: string): (r: Option<int>)
    ensures r.Some? <==> noteName in Notes || noteName in Flats
    ensures r.Some? ==> 0 <= r.value < 12
  {
    if noteName in NoteMap then Some(NoteMap[noteName]) else None
  }

  /** The note map sends each sharp name to its position in `Notes`. */
  lemma SharpsIndexed()
    ensures forall i :: 0 <= i < |Notes| ==> Notes[i] in NoteMap && NoteMap[Notes[i]] == i
  {
  }

  /** Each sharp name maps to its position in `Notes`, and each flat to the
      pitch class of the sharp one semitone below its letter. */
  lemma NoteIndexSpec()
    ensures forall i :: 0 <= i < |Notes| ==> GetNoteIndex(Notes[i]) == Some(i)
    ensures GetNoteIndex("Db") == GetNoteIndex("C#") == Some(1)
    ensures GetNoteIndex("Eb") == GetNoteIndex("D#") == Some(3)
    ensures GetNoteIndex("Gb") == GetNoteIndex("F#") == Some(6)
    ensures GetNoteIndex("Ab") == GetNoteIndex("G#") == Some(8)
    ensures GetNoteIndex("Bb") == GetNoteIndex("A#") == Some(10)
  {
    SharpsIndexed();
    FlatsAliased();
  }

  /** The flat names map to the pitch classes of their sharp spellings. */
  lemma FlatsAliased()
    ensures NoteMap["Db"] == NoteMap["C#"] == 1 && NoteMap["Eb"] == NoteMap["D#"] == 3
    ensures NoteMap["Gb"] == NoteMap["F#"] == 6 && NoteMap["Ab"] == NoteMap["G#"] == 8
    ensures NoteMap["Bb"] == NoteMap["A#"] == 10
  {
  }

  /** The fret on a string tuned to `open` that sounds `rootIndex`: the
      difference, with one wrap-around into the octave. */
  function FretFor(rootIndex: int, open: int): (fret: int)
    ensures fret % 12 == (rootIndex - open) % 12
    ensures -12 <= rootIndex - open < 12 ==> 0 <= fret < 12
  {
    var fret := rootIndex - open;
    if fret < 0 then fret + 12 else fret
  }

  /** For a pitch class and an open string, the wrapped difference is the
      remainder mod 12, it lies on the first octave of the neck, and that fret
      on that string sounds the root. */
  lemma FretForSpec(rootIndex: int, open: int)
    requires 0 <= rootIndex < 12 && 0 <= open < 12
    ensures FretFor(rootIndex, open) == (rootIndex - open) % 12
    ensures 0 <= FretFor(rootIndex, open) <= 11
    ensures (open + FretFor(rootIndex, open)) % 12 == rootIndex
  {
  }

  /** Whether the E shape (root on the 6th string) is used: it must be above
      the nut and no higher than the A shape. */
  predicate UsesSixthString(rootIndex: int)
  {
    var fretE, fretA := FretFor(rootIndex, LowE), FretFor(rootIndex, OpenA);
    fretE <= fretA && fretE > 0
  }

  /** The voicing for a root name and a quality, if there is one. */
  function CalculateChord(rootName: string, quality: string): (r: Option<Voicing>)
    ensures r.Some? ==> r.value.name == rootName + " " + quality
  {
    var key := rootName + "_" + quality;
    if key in OpenChords then
      var open := OpenChords[key];
      Some(Voicing(open.frets, open.fingers, 0, open.barre, rootName + " " + quality))
    else
      match GetNoteIndex(rootName)
      case None => None
      case Some(rootIndex) =>
        var fretE := FretFor(rootIndex, LowE);
        var fretA := FretFor(rootIndex, OpenA);
        var useShape := if fretE <= fretA && fretE > 0 then "6_" + quality else "5_" + quality;
        var fretPos := if fretE <= fretA && fretE > 0 then fretE else fretA;
        if useShape !in BarreShapes then None
        else
          var shape := BarreShapes[useShape];
          var to := if useShape[0] == '6' then 6 else 5;
          Some(Voicing(shape.frets, shape.fingers, fretPos, Some(BarreSpan(1, 1, to)),
                       rootName + " " + quality))
  }

  /** An open chord wins over any fret arithmetic: its own frets, fingers and
      barre, at base fret 0. */
  lemma OpenChordFirst(rootName: string, quality: string)
    requires rootName + "_" + quality in OpenChords
    ensures var open := OpenChords[rootName + "_" + quality];
      CalculateChord(rootName, quality)
        == Some(Voicing(open.frets, open.fingers, 0, open.barre, rootName + " " + quality))
  {
  }

  /** A movable-shape key names a table entry exactly when its quality is one
      the library offers. */
  lemma ShapeKeys(prefix: string, quality: string)
    requires prefix == "6_" || prefix == "5_"
    ensures prefix + quality in BarreShapes <==> quality in Qualities
  {
    var key := prefix + quality;
    assert key[..2] == prefix && key[2..] == quality;
    if key in BarreShapes {
      KeyQuality(key);
    }
    if quality in Qualities {
      QualityKey(prefix, quality);
    }
  }

  /** Both root strings have a shape for every offered quality. */
  lemma QualityKey(prefix: string, quality: string)
    requires prefix == "6_" || prefix == "5_"
    requires quality in Qualities
    ensures prefix + quality in BarreShapes
  {
    if prefix == "6_" {
      assert "6_" + Qualities[0] == "6_Major";
      assert "6_" + Qualities[1] == "6_Minor";
      assert "6_" + Qualities[2] == "6_7";
      assert "6_" + Qualities[3] == "6_Maj7";
      assert "6_" + Qualities[4] == "6_m7";
    } else {
      assert "5_" + Qualities[0] == "5_Major";
      assert "5_" + Qualities[1] == "5_Minor";
      assert "5_" + Qualities[2] == "5_7";
      assert "5_" + Qualities[3] == "5_Maj7";
      assert "5_" + Qualities[4] == "5_m7";
    }
  }

  /** Every movable-shape key is a root-string prefix followed by an offered quality. */
  lemma KeyQuality(key: string)
    requires key in BarreShapes
    ensures |key| >= 2 && key[2..] in Qualities
  {
    if key == "6_Major" || key == "5_Major" {
      assert key[2..] == Qualities[0];
    } else if key == "6_Minor" || key == "5_Minor" {
      assert key[2..] == Qualities[1];
    } else if key == "6_7" || key == "5_7" {
      assert key[2..] == Qualities[2];
    } else if key == "6_Maj7" || key == "5_Maj7" {
      assert key[2..] == Qualities[3];
    } else {
      assert key[2..] == Qualities[4];
    }
  }

  /** Without an open chord, a known root gets a barre chord exactly when the
      quality is offered: at the lower of the two root frets above the nut,
      preferring the 6th string on a tie, with the table's frets and fingers, a
      barre at relative fret 1 over all six strings (E shape) or five (A shape),
      and the root sounding on the root string at the base fret. An unknown
      root gives nothing. */
  lemma BarreChordSpec(rootName: string, quality: string)
    requires rootName + "_" + quality !in OpenChords
    ensures GetNoteIndex(rootName).None? ==> CalculateChord(rootName, quality).None?
    ensures GetNoteIndex(rootName).Some? ==>
      var rootIndex, r := GetNoteIndex(rootName).value, CalculateChord(rootName, quality);
      var sixth := UsesSixthString(rootIndex);
      var key := (if sixth then "6_" else "5_") + quality;
      && (r.Some? <==> quality in Qualities)
      && (r.Some? ==>
            && r.value.frets == BarreShapes[key].frets
            && r.value.fingers == BarreShapes[key].fingers
            && r.value.baseFret == (if sixth then (rootIndex - LowE) % 12 else (rootIndex - OpenA) % 12)
            && 0 <= r.value.baseFret <= 11
            && r.value.barre == Some(BarreSpan(1, 1, if sixth then 6 else 5))
            && (if sixth then (LowE + r.value.baseFret) % 12 else (OpenA + r.value.baseFret) % 12) == rootIndex)
  {
    if GetNoteIndex(rootName).Some? {
      var rootIndex := GetNoteIndex(rootName).value;
      var sixth := UsesSixthString(rootIndex);
      ShapeKeys(if sixth then "6_" else "5_", quality);
      FretForSpec(rootIndex, LowE);
      FretForSpec(rootIndex, OpenA);
      var key := (if sixth then "6_" else "5_") + quality;
      assert key[0] == (if sixth then '6' else '5');
    }
  }

  /** The E shape is chosen exactly when the E-string fret is above the nut and
      not above the A-string fret; otherwise the A shape, whose fret is then the
      lower one above the nut whenever the E-string fret is. */
  lemma ShapeChoice(rootIndex: int)
    requires 0 <= rootIndex < 12
    ensures var fretE, fretA := (rootIndex - LowE) % 12, (rootIndex - OpenA) % 12;
      && (UsesSixthString(rootIndex) <==> 0 < fretE <= fretA)
      && (!UsesSixthString(rootIndex) && fretE > 0 ==> fretA < fretE)
  {
    FretForSpec(rootIndex, LowE);
    FretForSpec(rootIndex, OpenA);
  }

  /** Every root the library lists has a voicing in every quality it lists. */
  lemma EveryChordDefined(rootName: string, quality: string)
    requires rootName in Notes && quality in Qualities
    ensures CalculateChord(rootName, quality).Some?
  {
    if rootName + "_" + quality !in OpenChords {
      BarreChordSpec(rootName, quality);
    }
  }
}
