/** The class of a sample is the letter its file name starts with: 'A'..'Z' numbered 0..25. */
module ClassIds {
  import opened Wrappers
  import Paths

  /** `[chr(i) for i in range(ord('A'), ord('Z') + 1)]`. */
  function Alphabets(): (r: seq<string>)
    ensures |r| == 26
  {
    seq(26, i requires 0 <= i < 26 => [('A' as int + i) as char])
  }

  /** `dict(zip(alphabets, range(26)))`. */
  function ClassNamesToIds(): map<string, int>
  {
    map i | 0 <= i < 26 :: Alphabets()[i] := i
  }

  /** `dict(zip(range(26), alphabets))`, the content of the label file. */
  function LabelsToClassNames(): map<int, string>
  {
    map i | 0 <= i < 26 :: Alphabets()[i]
  }

  /** A one-letter name is a class name exactly when the letter is a capital, and its id is the
      letter's position in the alphabet. */
  lemma ClassNamesAreCapitals(c: char)
    ensures [c] in ClassNamesToIds() <==> 'A' <= c <= 'Z'
    ensures 'A' <= c <= 'Z' ==> ClassNamesToIds()[[c]] == c as int - 'A' as int
  {
    if 'A' <= c <= 'Z' {
      var i := c as int - 'A' as int;
      assert Alphabets()[i] == [c];
    }
    if [c] in ClassNamesToIds() {
      var i :| 0 <= i < 26 && Alphabets()[i] == [c];
      assert [c][0] == c;
    }
  }

  /** The label map is the exact inverse of the class-id map. */
  lemma LabelsInvertClassIds()
    ensures forall i: int :: i in LabelsToClassNames() <==> 0 <= i < 26
    ensures forall name :: name in ClassNamesToIds() ==>
              ClassNamesToIds()[name] in LabelsToClassNames() && LabelsToClassNames()[ClassNamesToIds()[name]] == name
    ensures forall classId :: classId in LabelsToClassNames() ==>
              LabelsToClassNames()[classId] in ClassNamesToIds() && ClassNamesToIds()[LabelsToClassNames()[classId]] == classId
  {
    forall name | name in ClassNamesToIds()
      ensures ClassNamesToIds()[name] in LabelsToClassNames() && LabelsToClassNames()[ClassNamesToIds()[name]] == name
    {
      var i :| 0 <= i < 26 && Alphabets()[i] == name;
      assert ClassNamesToIds()[name] == i;
    }
    forall classId | classId in LabelsToClassNames()
      ensures LabelsToClassNames()[classId] in ClassNamesToIds() && ClassNamesToIds()[LabelsToClassNames()[classId]] == classId
    {
      assert Alphabets()[classId] in ClassNamesToIds();
      var j :| 0 <= j < 26 && Alphabets()[j] == Alphabets()[classId];
      assert Alphabets()[j][0] == Alphabets()[classId][0];
    }
  }

  /** A name whose first letter is a class name. */
  predicate StartsWithCapital(name: string) { name != "" && 'A' <= name[0] <= 'Z' }

  /** `class_names_to_ids[os.path.basename(path)[0]]`: an empty base name raises `IndexError`,
      a first character that is not a class name raises `KeyError`. */
  function ClassIdOf(ids: map<string, int>, path: string): (r: Result<int, PyError>)
    ensures r.Success? <==> Paths.Basename(path) != "" && [Paths.Basename(path)[0]] in ids
    ensures r.Success? ==> r.value == ids[[Paths.Basename(path)[0]]]
  {
    var name := Paths.Basename(path);
    if name == "" then Failure(IndexError)
    else if [name[0]] in ids then Success(ids[[name[0]]])
    else Failure(KeyError([name[0]]))
  }

  /** With the A..Z map, a file converts exactly when its name starts with a capital letter,
      and then its class is that letter's position. */
  lemma ClassIdOfLetter(path: string)
    ensures ClassIdOf(ClassNamesToIds(), path).Success? <==>
              Paths.Basename(path) != "" && 'A' <= Paths.Basename(path)[0] <= 'Z'
    ensures ClassIdOf(ClassNamesToIds(), path).Success? ==>
              ClassIdOf(ClassNamesToIds(), path).value == Paths.Basename(path)[0] as int - 'A' as int
              && 0 <= ClassIdOf(ClassNamesToIds(), path).value < 26
  {
    if Paths.Basename(path) != "" {
      ClassNamesAreCapitals(Paths.Basename(path)[0]);
    }
  }
}
