// The eight stress types and the three-flag survey code that selects one.
// A type's enum name is a code over {O, X}: position 0 is depression,
// position 1 anxiety, position 2 work stress ('O' = present).

module StressTypes {
  import opened Common

  datatype StressType = XXX | OXX | XOX | XXO | OOX | OXO | XOO | OOO

  /** The enum member's value: the type's Korean label. */
  function Value(t: StressType): string
  {
    match t
    case XXX => "평온형"
    case OXX => "우울형"
    case XOX => "불안형"
    case XXO => "직무스트레스형"
    case OOX => "우울+불안형"
    case OXO => "우울+직무스트레스형"
    case XOO => "불안+직무스트레스형"
    case OOO => "위기형"
  }

  /** The enum member's name. */
  function Name(t: StressType): string
  {
    match t
    case XXX => "XXX"
    case OXX => "OXX"
    case XOX => "XOX"
    case XXO => "XXO"
    case OOX => "OOX"
    case OXO => "OXO"
    case XOO => "XOO"
    case OOO => "OOO"
  }

  /** The members in declaration order, which is the order iterating the enum yields. */
  const AllStressTypes: seq<StressType> := [XXX, OXX, XOX, XXO, OOX, OXO, XOO, OOO]

  lemma AllStressTypesComplete(t: StressType)
    ensures t in AllStressTypes
  {
  }

  /** No member is listed twice, so iterating the enum yields each member exactly once. */
  lemma AllStressTypesDistinct()
    ensures forall i, j :: 0 <= i < j < |AllStressTypes| ==> AllStressTypes[i] != AllStressTypes[j]
  {
  }

  /** Different members carry different labels and different names. */
  lemma ValuesAndNamesDistinct(t: StressType, u: StressType)
    requires t != u
    ensures Value(t) != Value(u)
    ensures Name(t) != Name(u)
  {
  }

  function Mark(flag: bool): char
  {
    if flag then 'O' else 'X'
  }

  /** The code the survey flags spell: "O" for a flag that is set, "X" otherwise, in the order depression, anxiety, work stress. */
  function SurveyCode(depression: bool, anxiety: bool, workStress: bool): (code: string)
    ensures |code| == 3
    ensures (code[0] == 'O' <==> depression) && (code[1] == 'O' <==> anxiety) && (code[2] == 'O' <==> workStress)
    ensures forall i :: 0 <= i < 3 ==> code[i] == 'O' || code[i] == 'X'
  {
    [Mark(depression), Mark(anxiety), Mark(workStress)]
  }

  /** The eight-entry code table; any other string is not a key. */
  function CodeTable(code: string): Option<StressType>
  {
    if code == "XXX" then Some(XXX)
    else if code == "OXX" then Some(OXX)
    else if code == "XOX" then Some(XOX)
    else if code == "XXO" then Some(XXO)
    else if code == "OOX" then Some(OOX)
    else if code == "OXO" then Some(OXO)
    else if code == "XOO" then Some(XOO)
    else if code == "OOO" then Some(OOO)
    else None
  }

  /** The table maps each member's name back to that member and nothing else to it. */
  lemma CodeTableInvertsName(t: StressType, code: string)
    ensures CodeTable(Name(t)) == Some(t)
    ensures CodeTable(code) == Some(t) ==> code == Name(t)
  {
  }

  /** determine_stress_type: look the survey code up, defaulting to XXX. */
  function Classify(depression: bool, anxiety: bool, workStress: bool): (t: StressType)
    ensures Name(t) == SurveyCode(depression, anxiety, workStress)
  {
    CodeTable(SurveyCode(depression, anxiety, workStress)).GetOr(XXX)
  }

  /** The default is never taken: every survey code is a key of the table. */
  lemma {:induction false} EveryCodeIsMapped(depression: bool, anxiety: bool, workStress: bool)
    ensures CodeTable(SurveyCode(depression, anxiety, workStress)).Some?
  {
    var code := SurveyCode(depression, anxiety, workStress);
    assert code == [Mark(depression), Mark(anxiety), Mark(workStress)];
  }

  function HasDepression(t: StressType): bool { Name(t)[0] == 'O' }
  function HasAnxiety(t: StressType): bool { Name(t)[1] == 'O' }
  function HasWorkStress(t: StressType): bool { Name(t)[2] == 'O' }

  /** Classification is a bijection between the eight flag combinations and the eight types. */
  lemma ClassifyRoundTrip(t: StressType, depression: bool, anxiety: bool, workStress: bool)
    ensures Classify(HasDepression(t), HasAnxiety(t), HasWorkStress(t)) == t
    ensures var c := Classify(depression, anxiety, workStress);
      HasDepression(c) == depression && HasAnxiety(c) == anxiety && HasWorkStress(c) == workStress
  {
    var c := Classify(HasDepression(t), HasAnxiety(t), HasWorkStress(t));
    assert Name(c) == Name(t);
    if c != t {
      ValuesAndNamesDistinct(c, t);
    }
  }

  /** Distinct answers never share a type. */
  lemma ClassifyInjective(d1: bool, a1: bool, w1: bool, d2: bool, a2: bool, w2: bool)
    requires Classify(d1, a1, w1) == Classify(d2, a2, w2)
    ensures d1 == d2 && a1 == a2 && w1 == w2
  {
    var t := Classify(d1, a1, w1);
    ClassifyRoundTrip(t, d1, a1, w1);
    ClassifyRoundTrip(t, d2, a2, w2);
  }
}
