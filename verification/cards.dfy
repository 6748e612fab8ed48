/** The three card sets: Bedroom Shop resources, Closet of Shame events and
    One Hit Wonders, with the Closet's d20 rule tables. */
module Cards {
  import opened Wrappers

  /** A Bedroom Shop resource card, identified by its key. */
  datatype BedroomCard =
    | PassS4Plus10      // +$10 on every pass of First of the Month
    | LandS20Plus5      // +$5 on every landing on the Bedroom Shop
    | SwapAnyBedroom    // swap places with any player
    | VirginiaSlims     // no effect
    | DoubleBank        // money received from the bank is doubled
    | MayPlus1          // one optional extra clockwise step per turn

  const BedroomShop: seq<BedroomCard> :=
    [PassS4Plus10, LandS20Plus5, SwapAnyBedroom, VirginiaSlims, DoubleBank, MayPlus1]

  /** One row of a d20 table: on a roll in [min, max] pay and/or collect
      (0 stands for an absent amount). */
  datatype Rule = Rule(min: int, max: int, pay: nat, collect: nat)

  predicate Covers(rule: Rule, roll: int) {
    rule.min <= roll <= rule.max
  }

  datatype ClosetKind =
    | RollBank                 // pay or collect with the bank
    | RollBankMulti            // the same, with three ranges
    | TargetRollPayToDrawer    // a chosen player pays the drawer

  datatype ClosetCard = ClosetCard(kind: ClosetKind, rules: seq<Rule>)

  const Closet: seq<ClosetCard> := [
    ClosetCard(RollBank, [Rule(1, 9, 5, 0), Rule(10, 20, 0, 10)]),
    ClosetCard(RollBankMulti, [Rule(1, 9, 0, 10), Rule(10, 10, 100, 0), Rule(11, 20, 10, 0)]),
    ClosetCard(TargetRollPayToDrawer, [Rule(1, 9, 5, 0), Rule(10, 20, 10, 0)]),
    ClosetCard(RollBank, [Rule(1, 9, 10, 0), Rule(10, 20, 0, 20)]),
    ClosetCard(RollBank, [Rule(1, 9, 10, 0), Rule(10, 20, 0, 20)]),
    ClosetCard(RollBank, [Rule(1, 9, 20, 0), Rule(10, 20, 0, 20)]),
    ClosetCard(RollBank, [Rule(1, 9, 10, 0), Rule(10, 20, 0, 10)])
  ]

  datatype OneHitCard =
    | MicDrop                  // the target loses a turn
    | GoatTax                  // every other player pays the owner $10
    | Encore                   // the owner takes another turn
    | Swap                     // swap places with any player
    | BankCollect(amount: nat) // collect from the bank

  const OneHitWonders: seq<OneHitCard> := [MicDrop, GoatTax, Encore, Swap, BankCollect(30)]

  /** `rules.find(x => r >= x.min && r <= x.max)`: the first rule covering the roll. */
  function FindRule(rules: seq<Rule>, roll: int): (found: Option<Rule>)
    ensures found.Some? ==>
      exists i :: 0 <= i < |rules| && rules[i] == found.value && Covers(rules[i], roll)
                  && forall j :: 0 <= j < i ==> !Covers(rules[j], roll)
    ensures found.None? ==> forall i :: 0 <= i < |rules| ==> !Covers(rules[i], roll)
  {
    if rules == [] then None
    else if Covers(rules[0], roll) then Some(rules[0])
    else
      var rest := FindRule(rules[1..], roll);
      assert rest.Some? ==> exists i :: 1 <= i < |rules| && rules[i] == rest.value && Covers(rules[i], roll)
                                        && forall j :: 0 <= j < i ==> !Covers(rules[j], roll) by {
        if rest.Some? {
          var i :| 0 <= i < |rules[1..]| && rules[1..][i] == rest.value && Covers(rules[1..][i], roll)
                   && forall j :: 0 <= j < i ==> !Covers(rules[1..][j], roll);
          assert forall j :: 0 <= j < i + 1 ==> !Covers(rules[j], roll) by {
            forall j | 0 <= j < i + 1 ensures !Covers(rules[j], roll) {
              if j > 0 { assert rules[j] == rules[1..][j - 1]; }
            }
          }
        }
      }
      rest
  }

  /** Some rule of the table covers the roll. */
  predicate Covered(rules: seq<Rule>, roll: int) {
    exists i :: 0 <= i < |rules| && Covers(rules[i], roll)
  }

  /** A table partitions [1, 20]: every rule lies inside it, no two rules
      overlap, and every roll is covered. */
  ghost predicate PartitionsD20(rules: seq<Rule>) {
    && (forall i :: 0 <= i < |rules| ==> 1 <= rules[i].min <= rules[i].max <= 20)
    && (forall i, j :: 0 <= i < j < |rules| ==> rules[i].max < rules[j].min || rules[j].max < rules[i].min)
    && (forall roll :: 1 <= roll <= 20 ==> Covered(rules, roll))
  }

  /** On a partitioning table the lookup finds, for every roll in [1, 20],
      the one and only rule that covers it. */
  lemma FindRuleUnique(rules: seq<Rule>, roll: int)
    requires PartitionsD20(rules) && 1 <= roll <= 20
    ensures FindRule(rules, roll).Some?
    ensures forall i :: 0 <= i < |rules| && Covers(rules[i], roll) ==> FindRule(rules, roll) == Some(rules[i])
  {
    var found := FindRule(rules, roll);
    assert Covered(rules, roll);
    var k :| 0 <= k < |rules| && Covers(rules[k], roll);
    assert found.Some?;
    var i0 :| 0 <= i0 < |rules| && rules[i0] == found.value && Covers(rules[i0], roll)
              && forall j :: 0 <= j < i0 ==> !Covers(rules[j], roll);
    forall i | 0 <= i < |rules| && Covers(rules[i], roll)
      ensures found == Some(rules[i])
    {
    }
  }

  lemma SplitAtTenPartitions(rules: seq<Rule>)
    requires |rules| == 2 && rules[0].min == 1 && rules[0].max == 9
    requires rules[1].min == 10 && rules[1].max == 20
    ensures PartitionsD20(rules)
  {
    forall roll | 1 <= roll <= 20
      ensures Covered(rules, roll)
    {
      if roll <= 9 { assert Covers(rules[0], roll); } else { assert Covers(rules[1], roll); }
    }
  }

  lemma SplitAroundTenPartitions(rules: seq<Rule>)
    requires |rules| == 3 && rules[0].min == 1 && rules[0].max == 9
    requires rules[1].min == 10 && rules[1].max == 10
    requires rules[2].min == 11 && rules[2].max == 20
    ensures PartitionsD20(rules)
  {
    forall roll | 1 <= roll <= 20
      ensures Covered(rules, roll)
    {
      if roll <= 9 { assert Covers(rules[0], roll); }
      else if roll == 10 { assert Covers(rules[1], roll); }
      else { assert Covers(rules[2], roll); }
    }
  }

  /** Every Closet of Shame table partitions [1, 20]. */
  lemma ClosetTablesPartition()
    ensures forall c :: c in Closet ==> PartitionsD20(c.rules)
  {
    forall c | c in Closet
      ensures PartitionsD20(c.rules)
    {
      if c == Closet[1] {
        SplitAroundTenPartitions(c.rules);
      } else {
        SplitAtTenPartitions(c.rules);
      }
    }
  }

  /** For every Closet card and every d20 roll, `rules.find` picks a rule,
      and it is the only rule of the card that covers the roll. */
  lemma ClosetRuleUnique(card: ClosetCard, roll: int)
    requires card in Closet && 1 <= roll <= 20
    ensures FindRule(card.rules, roll).Some? && Covers(FindRule(card.rules, roll).value, roll)
    ensures forall i :: 0 <= i < |card.rules| && Covers(card.rules[i], roll) ==>
              FindRule(card.rules, roll) == Some(card.rules[i])
  {
    ClosetTablesPartition();
    FindRuleUnique(card.rules, roll);
  }
}
