/** The identity a caller gives a commit, and why it names the run and generation it finalizes. */
module CommitNames {
  import opened Visibility
  import opened Fence
  import opened Lifecycle
  import opened Decimal

  /** `${run}#g${generation}#${terminal}` */
  function CommitIdOf(run: RunId, generation: Generation, terminal: string): CommitId {
    run + "#g" + Digits(generation) + "#" + terminal
  }

  /** Up to the first '#'. */
  function Head(s: string): string {
    if s == [] || s[0] == '#' then [] else [s[0]] + Head(s[1..])
  }

  lemma {:induction false} HeadStopsAtHash(a: string, b: string)
    requires '#' !in a
    ensures Head(a + "#" + b) == a
  {
    var s := a + "#" + b;
    if a == [] {
      assert s[0] == '#';
    } else {
      assert s[0] == a[0] && s[1..] == a[1..] + "#" + b;
      HeadStopsAtHash(a[1..], b);
    }
  }

  /** Equal identities were derived from the same run and generation. */
  lemma CommitIdNamesHolder(run1: RunId, generation1: Generation, terminal1: string,
                            run2: RunId, generation2: Generation, terminal2: string)
    requires '#' !in run1 && '#' !in run2
    requires CommitIdOf(run1, generation1, terminal1) == CommitIdOf(run2, generation2, terminal2)
    ensures run1 == run2 && generation1 == generation2 && terminal1 == terminal2
  {
    var rest1, rest2 := "g" + Digits(generation1) + "#" + terminal1, "g" + Digits(generation2) + "#" + terminal2;
    var id := CommitIdOf(run1, generation1, terminal1);
    assert id == run1 + "#" + rest1 && id == run2 + "#" + rest2;
    HeadStopsAtHash(run1, rest1);
    HeadStopsAtHash(run2, rest2);
    assert rest1 == id[|run1| + 1..] && rest2 == id[|run1| + 1..];
    var g1, g2 := "g" + Digits(generation1), "g" + Digits(generation2);
    DigitsLack(generation1, '#');
    DigitsLack(generation2, '#');
    HeadStopsAtHash(g1, terminal1);
    HeadStopsAtHash(g2, terminal2);
    assert Digits(generation1) == g1[1..] && Digits(generation2) == g2[1..];
    DigitsDetermine(generation1, generation2);
    assert terminal1 == rest1[|g1| + 1..] && terminal2 == rest2[|g2| + 1..];
  }
}
