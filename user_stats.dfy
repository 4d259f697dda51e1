/** The sidebar stats widget (src/components/UserStats.tsx): a pure
    function of its props, where an omitted prop takes its default. */
module UserStats {
  import opened Js

  /** The props; `None` means the prop was omitted (undefined). The props
      are declared without null (`userName?: string`, ...), so a null prop
      cannot occur. */
  datatype Props = Props(
    userName: Option<string>,
    points: Option<int>,
    reviews: Option<int>,
    streak: Option<int>)

  /** What the widget shows: the avatar letter, the name and the three
      counts in the order points, reviews, streak. */
  datatype StatsView = StatsView(initial: string, name: string, counts: seq<int>)

  const DefaultUserName: string := "Student"

  /** A default parameter applies only to an omitted prop, never to an
      explicit "" or 0. */
  function Render(props: Props): (v: StatsView)
    ensures |v.initial| <= 1 && |v.counts| == 3
    ensures props.userName.None? ==> v.name == DefaultUserName
    ensures props.userName.Some? ==> v.name == props.userName.value
  {
    var name := props.userName.GetOr(DefaultUserName);
    StatsView(
      ToUpperCase(CharAt(name, 0)),
      name,
      [props.points.GetOr(0), props.reviews.GetOr(0), props.streak.GetOr(0)])
  }

  /** The avatar letter is the first character of the shown name, upper-cased,
      and empty only when the name is. */
  lemma InitialIsFirstCharUpper(props: Props)
    ensures var v := Render(props);
      (v.name == "" ==> v.initial == "") && (v.name != "" ==> v.initial == [UpperChar(v.name[0])])
  {
  }

  /** With every prop omitted: "S", "Student" and three zeros. */
  lemma OmittedPropsDefault()
    ensures Render(Props(None, None, None, None)) == StatsView("S", "Student", [0, 0, 0])
  {
    assert ToUpperCase("S") == "S";
  }

  /** An explicit empty name is shown as is, with an empty avatar letter. */
  lemma ExplicitEmptyName(props: Props)
    requires props.userName == Some("")
    ensures Render(props).initial == "" && Render(props).name == ""
  {
  }

  /** Passed counts are shown unchanged, in the order points, reviews, streak;
      an omitted one shows 0. */
  lemma CountsShownInOrder(props: Props)
    ensures Render(props).counts ==
      [props.points.GetOr(0), props.reviews.GetOr(0), props.streak.GetOr(0)]
    ensures props.points.Some? ==> Render(props).counts[0] == props.points.value
    ensures props.reviews.Some? ==> Render(props).counts[1] == props.reviews.value
    ensures props.streak.Some? ==> Render(props).counts[2] == props.streak.value
  {
  }
}
