/** The piano sound table (sounds/Sounds.cpp): for each supported keyboard,
    the program a key selects, as a 1-based program number and a bank. */
module Sounds {
  import opened Midi
  import opened Results

  /** `Program`: 1-based program number and bank select MSB and LSB. */
  datatype Program = Program(number: Byte, msb: Byte, lsb: Byte)

  /** The sounds of the "kdp90" keyboard, by selecting key. */
  const KDP90: map<Byte, Program> := map[
    21 := Program(1, 121, 0),    // Concert Grand
    23 := Program(1, 95, 16),    // Concert Grand 2
    24 := Program(1, 121, 1),    // Studio Grand
    26 := Program(2, 121, 0),    // Modern Piano
    28 := Program(5, 121, 0),    // Classic E. Piano
    29 := Program(6, 121, 0),    // Modern E. Piano
    31 := Program(18, 121, 0),   // Jazz Organ
    33 := Program(20, 121, 0),   // Church Organ
    35 := Program(7, 121, 0),    // Harpsichord
    36 := Program(12, 121, 0),   // Vibraphone
    38 := Program(49, 121, 0),   // String Ensemble
    40 := Program(45, 95, 1),    // Slow Strings
    41 := Program(53, 121, 0),   // Choir
    43 := Program(89, 121, 0),   // New Age Pad
    45 := Program(100, 121, 0)   // Atmosphere
  ]

  const KDP90_KEYS: set<Byte> := {21, 23, 24, 26, 28, 29, 31, 33, 35, 36, 38, 40, 41, 43, 45}

  lemma Kdp90Keys()
    ensures KDP90.Keys == KDP90_KEYS
  {
  }

  lemma Kdp90Size()
    ensures |KDP90| == 15
  {
    Kdp90Keys();
    KeyCount();
  }

  lemma KeyCount()
    ensures |KDP90_KEYS| == 15
  {
    var low: set<Byte> := {21, 23, 24, 26, 28};
    var middle: set<Byte> := {29, 31, 33, 35, 36};
    var high: set<Byte> := {38, 40, 41, 43, 45};
    FiveKeys(21, 23, 24, 26, 28);
    FiveKeys(29, 31, 33, 35, 36);
    FiveKeys(38, 40, 41, 43, 45);
    DisjointCard(low, middle, 29);
    DisjointCard(low + middle, high, 38);
    assert KDP90_KEYS == low + middle + high;
  }

  lemma FiveKeys(a: Byte, b: Byte, c: Byte, d: Byte, e: Byte)
    requires a < b < c < d < e
    ensures |{a, b, c, d, e}| == 5
  {
    assert |{a, b}| == 2;
    assert |{a, b, c}| == 3;
    assert |{a, b, c, d}| == 4;
  }

  /** Keys below `m` and keys from `m` up are disjoint. */
  lemma DisjointCard(s: set<Byte>, t: set<Byte>, m: int)
    requires forall x :: x in s ==> x < m
    requires forall x :: x in t ==> x >= m
    ensures |s + t| == |s| + |t|
  {
    assert s * t == {};
  }

  lemma Kdp90Programs()
    ensures forall key :: key in KDP90 ==> 21 <= key <= 45 && KDP90[key].number >= 1
  {
    Kdp90Keys();
    forall key | key in KDP90
      ensures 21 <= key <= 45 && KDP90[key].number >= 1
    {
      if key == 21 {} else if key == 23 {} else if key == 24 {} else if key == 26 {}
      else if key == 28 {} else if key == 29 {} else if key == 31 {} else if key == 33 {}
      else if key == 35 {} else if key == 36 {} else if key == 38 {} else if key == 40 {}
      else if key == 41 {} else if key == 43 {} else {}
    }
  }

  /** `getPianoSounds`: `map::at` throws for an unknown keyboard. */
  function PianoSounds(name: string): (r: Result<map<Byte, Program>>)
    ensures r.Ok? <==> name == "kdp90"
    ensures r.Ok? ==> |r.value| == 15
    ensures r.Ok? ==> forall key :: key in r.value ==> 21 <= key <= 45 && r.value[key].number >= 1
    ensures r.Ok? ==> 23 in r.value && r.value[23] == Program(1, 95, 16)
  {
    if name == "kdp90" then
      Kdp90Size();
      Kdp90Programs();
      Ok(KDP90)
    else Err("map::at")
  }
}
