/** Imports that report no error and leave the copy without files of the source. */
module ImportFindings {
  import opened Wrappers
  import opened ImportSync
  import opened ImportProofs
  import opened ImportTheorems

  // Every link's target is a name in the root of the imported directory.
  const ByName: Ends := (at: Path, target: string) => Inside([target])

  // ----- a directory that became a link to another one -----

  const Root: Tree := map[[] := Directory]

  const Usr: Tree := Root[["usr"] := Directory][["usr", "f"] := File("kept")]

  const Before: Tree := Usr[["lib"] := Directory][["lib", "f"] := File("old")]

  const After: Tree := Usr[["lib"] := Link("usr")]

  lemma Added(t: Tree, p: Path, node: Node)
    requires WellFormed(t) && p != [] && p !in t && Parent(p) in t && t[Parent(p)] == Directory
    ensures WellFormed(t[p := node])
  {
  }

  /** The entry f named behind the link lib is the one in usr. */
  lemma BehindLib(t: Tree)
    requires WellFormed(t) && ["lib"] in t && t[["lib"]] == Link("usr")
    requires ["usr"] in t && t[["usr"]] == Directory
    ensures PlaceOf(t, ByName, ["lib", "f"]) == At(["usr", "f"])
  {
    assert Parent(["lib", "f"]) == ["lib"] && ["lib"] + [] == ["lib"] && ["usr"] + [] == ["usr"];
    BehindNode(t, ByName, ["lib"], [], LINK_LIMIT);
    assert [] + ["usr"] == ["usr"];
    EnterPlain(t, ByName, [], ["usr"], LINK_LIMIT - 1);
    assert ["usr"] + ["f"] == ["usr", "f"];
  }

  lemma LibReplaced()
    ensures WellFormed(Before) && WellFormed(After)
    ensures ApplyDiff(Before, After, ByName, ["lib"]) == Ok(After)
  {
    WellFormedAre();
    assert Parent(["lib"]) == [];
    OtherRuns(Before, ByName, ["lib"], Link("usr"));
    LibInPlace();
  }

  lemma LibInPlace()
    ensures Without(Before, ["lib"])[["lib"] := Link("usr")] == After
  {
    assert ["lib"] <= ["lib", "f"];
    assert !(["lib"] <= ["usr", "f"]) by {
      assert ["usr", "f"][0] == "usr" && "usr"[0] != "lib"[0];
    }
    assert !(["lib"] <= ["usr"]) by {
      assert ["usr"][0] == "usr" && "usr"[0] != "lib"[0];
    }
  }

  lemma WellFormedAre()
    ensures WellFormed(Before) && WellFormed(After)
  {
    assert Parent(["lib"]) == [] && Parent(["usr"]) == [];
    assert Parent(["lib", "f"]) == ["lib"] && Parent(["usr", "f"]) == ["usr"];
    Added(Root, ["usr"], Directory);
    Added(Root[["usr"] := Directory], ["usr", "f"], File("kept"));
    Added(Usr, ["lib"], Link("usr"));
    Added(Usr, ["lib"], Directory);
    Added(Usr[["lib"] := Directory], ["lib", "f"], File("old"));
  }

  /** The link is brought over, and then the file that was in the directory is removed behind it. */
  lemma VanishedFileIsRemovedBehindLink()
    ensures WellFormed(Before) && WellFormed(After) && Covers(Before, After, [["lib"], ["lib", "f"]])
    ensures ["usr", "f"] in Before && ["usr", "f"] in After && Before[["usr", "f"]] == After[["usr", "f"]]
    ensures Sync(Before, After, ByName, [["lib"], ["lib", "f"]]) == Ok(After - {["usr", "f"]})
  {
    LibReplaced();
    LibCovers();
    SecondStep(Before, After, ByName, ["lib"], ["lib", "f"]);
    BehindLib(After);
    FileGone();
  }

  lemma FileGone()
    ensures ["lib", "f"] !in After && Without(After, ["usr", "f"]) == After - {["usr", "f"]}
  {
    WellFormedAre();
    NothingUnder(After, ["usr", "f"]);
  }

  lemma LibCovers()
    ensures Covers(Before, After, [["lib"], ["lib", "f"]])
  {
    forall q | q !in [["lib"], ["lib", "f"]] ensures Right(Before, After, q) {
      assert q != ["lib"] && q != ["lib", "f"];
    }
  }

  // ----- a link behind the link -----

  const Kept: Tree := Root[["q"] := Directory][["z"] := Directory][["z", "y"] := File("kept")]

  const WithP: Tree := Kept[["p"] := Directory][["p", "x"] := Directory][["p", "x", "y"] := File("old")]

  const ChainBefore: Tree := WithP[["q", "x"] := Link("z")]

  const ChainAfter: Tree := Kept[["p"] := Link("q")]

  // The state between: p is a link, and the link in q is still there.
  const ChainBetween: Tree := ChainAfter[["q", "x"] := Link("z")]

  lemma KeptIsWellFormed()
    ensures WellFormed(Kept)
  {
    assert Parent(["q"]) == [] && Parent(["z"]) == [] && Parent(["z", "y"]) == ["z"];
    Added(Root, ["q"], Directory);
    Added(Root[["q"] := Directory], ["z"], Directory);
    Added(Root[["q"] := Directory][["z"] := Directory], ["z", "y"], File("kept"));
  }

  lemma ChainBeforeWellFormed()
    ensures WellFormed(ChainBefore)
  {
    KeptIsWellFormed();
    assert Parent(["p"]) == [] && Parent(["p", "x"]) == ["p"] && Parent(["p", "x", "y"]) == ["p", "x"];
    assert Parent(["q", "x"]) == ["q"];
    Added(Kept, ["p"], Directory);
    Added(Kept[["p"] := Directory], ["p", "x"], Directory);
    Added(Kept[["p"] := Directory][["p", "x"] := Directory], ["p", "x", "y"], File("old"));
    Added(WithP, ["q", "x"], Link("z"));
  }

  lemma ChainsWellFormed()
    ensures WellFormed(ChainBefore) && WellFormed(ChainAfter) && WellFormed(ChainBetween)
  {
    ChainBeforeWellFormed();
    KeptIsWellFormed();
    assert Parent(["p"]) == [] && Parent(["q", "x"]) == ["q"];
    Added(Kept, ["p"], Link("q"));
    Added(ChainAfter, ["q", "x"], Link("z"));
  }

  lemma LookupBehindP(t: Tree, s: Path)
    requires WellFormed(t) && ["p"] in t && t[["p"]] == Link("q") && ["q"] in t && t[["q"]] == Directory
    ensures Dir(t, ByName, ["p"] + s) == Enter(t, ByName, ["q"], s, LINK_LIMIT - 1)
  {
    BehindNode(t, ByName, ["p"], s, LINK_LIMIT);
    assert [] + ["q"] == ["q"];
    EnterThrough(t, ByName, [], ["q"], s, LINK_LIMIT - 1);
  }

  lemma BehindPIs(t: Tree)
    requires WellFormed(t) && ["p"] in t && t[["p"]] == Link("q") && ["q"] in t && t[["q"]] == Directory
    ensures Dir(t, ByName, ["p"]) == At(["q"])
    ensures ["q", "x"] !in t ==> Dir(t, ByName, ["p", "x"]) == Nowhere
  {
    LookupBehindP(t, []);
    LookupBehindP(t, ["x"]);
    assert ["p"] + [] == ["p"] && ["p"] + ["x"] == ["p", "x"] && ["q"] + ["x"] == ["q", "x"];
  }

  lemma NothingBehindP()
    ensures !Names(ChainAfter, ByName, ["p", "x"]) && !Names(ChainAfter, ByName, ["p", "x", "y"])
  {
    ChainsWellFormed();
    BehindPIs(ChainAfter);
    assert Parent(["p", "x"]) == ["p"] && Parent(["p", "x", "y"]) == ["p", "x"] && ["q"] + ["x"] == ["q", "x"];
    assert ["q", "x"] !in ChainAfter;
  }

  lemma NothingNamed()
    ensures !Names(ChainAfter, ByName, ["p", "x"]) && !Names(ChainAfter, ByName, ["p", "x", "y"])
    ensures !Names(ChainAfter, ByName, ["q", "x"])
  {
    NothingBehindP();
    ChainsWellFormed();
    assert Parent(["q", "x"]) == ["q"];
    PlacePlain(ChainAfter, ByName, ["q", "x"]);
  }

  lemma NothingLingers()
    ensures SafeLinks(ChainBefore, ChainAfter, ByName)
  {
    NothingNamed();
    forall p | p in ChainBefore && p !in ChainAfter ensures !Names(ChainAfter, ByName, p) {
      assert p in [["p", "x"], ["p", "x", "y"], ["q", "x"]];
    }
  }

  lemma FileBehindBoth()
    ensures WellFormed(ChainBetween) && PlaceOf(ChainBetween, ByName, ["p", "x", "y"]) == At(["z", "y"])
  {
    ChainsWellFormed();
    var n := LINK_LIMIT - 1;
    LookupBehindP(ChainBetween, ["x"]);
    assert ["p"] + ["x"] == Parent(["p", "x", "y"]) && ["q"] + ["x"] == ["q", "x"] && ["z"] + ["x"][1..] == ["z"];
    assert Enter(ChainBetween, ByName, ["q"], ["x"], n) == Enter(ChainBetween, ByName, [], ["z"], n - 1);
    assert [] + ["z"] == ["z"];
    EnterPlain(ChainBetween, ByName, [], ["z"], n - 1);
    assert ["z"] + ["y"] == ["z", "y"];
  }

  lemma LinkOnTheWay()
    ensures !LinkFree(ChainBefore, ChainAfter, ["p"], ["q"])
  {
    assert Behind(["p"], ["q"], ["p", "x", "y"]) == ["q", "x", "y"];
    assert Below(["p", "x", "y"], ["p"]) && ["q"] <= ["q", "x"] < ["q", "x", "y"];
    assert ["p", "x", "y"] in ChainBefore && ChainBefore[["q", "x"]].Link?;
  }

  /** Looking at the source alone does not show this one: the removed file is reached through a link
      that is itself to go.  ConflictsSettled excludes it. */
  lemma LinkBehindLinkLoses()
    ensures WellFormed(ChainBefore) && WellFormed(ChainAfter)
    ensures SafeLinks(ChainBefore, ChainAfter, ByName) && !ConflictsSettled(ChainBefore, ChainAfter, ByName)
    ensures Covers(ChainBefore, ChainAfter, [["p"], ["p", "x", "y"], ["p", "x"], ["q", "x"]])
    ensures var run := Sync(ChainBefore, ChainAfter, ByName, [["p"], ["p", "x", "y"], ["p", "x"], ["q", "x"]]);
      run == Ok(ChainAfter - {["z", "y"]})
  {
    ChainsWellFormed();
    NothingLingers();
    ChainRuns();
    LinkOnTheWay();
    assert ["p"] < ["p", "x"] && Below(["p", "x"], ["p"]);
    assert DirectoryBecomesLink(ChainBefore, ChainAfter, ["p"]);
    assert ByName(["p"], "q") == Inside(["q"]);
  }

  const Lost: Tree := ChainBetween - {["z", "y"]}

  lemma LinkInPlace()
    ensures Without(ChainBefore, ["p"])[["p"] := Link("q")] == ChainBetween
  {
    assert ["p"] <= ["p", "x"] && ["p"] <= ["p", "x", "y"];
    assert !(["p"] <= ["q"]) && !(["p"] <= ["q", "x"]) && !(["p"] <= ["z"]) && !(["p"] <= ["z", "y"]) by {
      assert ["q"][0] == ["q", "x"][0] == "q" && ["z"][0] == ["z", "y"][0] == "z";
      assert "q"[0] != "p"[0] && "z"[0] != "p"[0];
    }
  }

  lemma LostIs()
    ensures WellFormed(Lost) && Without(ChainBetween, ["z", "y"]) == Lost
  {
    ChainsWellFormed();
    NothingUnder(ChainBetween, ["z", "y"]);
    ClearedWellFormed(ChainBetween, ["z", "y"]);
  }

  lemma AlsoLost()
    ensures WellFormed(Lost - {["q", "x"]}) && Without(Lost, ["q", "x"]) == Lost - {["q", "x"]}
  {
    LostIs();
    NothingUnder(Lost, ["q", "x"]);
    ClearedWellFormed(Lost, ["q", "x"]);
  }

  lemma FirstOne()
    ensures ApplyDiff(ChainBefore, ChainAfter, ByName, ["p"]) == Ok(ChainBetween)
  {
    ChainBeforeWellFormed();
    assert Parent(["p"]) == [];
    OtherRuns(ChainBefore, ByName, ["p"], Link("q"));
    LinkInPlace();
  }

  lemma FirstTwo()
    ensures Sync(ChainBefore, ChainAfter, ByName, [["p"], ["p", "x", "y"]]) == Ok(Lost)
  {
    FirstOne();
    SecondStep(ChainBefore, ChainAfter, ByName, ["p"], ["p", "x", "y"]);
    FileGoes();
  }

  lemma FileGoes()
    ensures ApplyDiff(ChainBetween, ChainAfter, ByName, ["p", "x", "y"]) == Ok(Lost)
  {
    FileBehindBoth();
    LostIs();
    assert ["p", "x", "y"] !in ChainAfter;
  }

  lemma LastTwo()
    ensures RemoveAll(Lost, ByName, ["p", "x"]) == Ok(Lost - {["q", "x"]})
    ensures RemoveAll(Lost - {["q", "x"]}, ByName, ["q", "x"]) == Ok(Lost - {["q", "x"]})
  {
    LostIs();
    AlsoLost();
    LookupBehindP(Lost, []);
    assert ["p"] + [] == ["p"] == Parent(["p", "x"]) && ["q"] + ["x"] == ["q", "x"];
    var rest := Lost - {["q", "x"]};
    assert Parent(["q", "x"]) == ["q"];
    PlacePlain(rest, ByName, ["q", "x"]);
    NothingToRemove(rest, ["q", "x"]);
  }

  lemma ChainCovers()
    ensures Covers(ChainBefore, ChainAfter, [["p"], ["p", "x", "y"], ["p", "x"], ["q", "x"]])
  {
    var diffs := [["p"], ["p", "x", "y"], ["p", "x"], ["q", "x"]];
    forall q | q !in diffs ensures Right(ChainBefore, ChainAfter, q) {
      assert q != diffs[0] && q != diffs[1] && q != diffs[2] && q != diffs[3];
    }
  }

  lemma ChainRuns()
    ensures Covers(ChainBefore, ChainAfter, [["p"], ["p", "x", "y"], ["p", "x"], ["q", "x"]])
    ensures var run := Sync(ChainBefore, ChainAfter, ByName, [["p"], ["p", "x", "y"], ["p", "x"], ["q", "x"]]);
      run == Ok(ChainAfter - {["z", "y"]})
  {
    FirstTwo();
    LastTwo();
    ChainCovers();
    var two := [["p"], ["p", "x", "y"]];
    OneMore(ChainBefore, ChainAfter, ByName, two, ["p", "x"]);
    OneMore(ChainBefore, ChainAfter, ByName, two + [["p", "x"]], ["q", "x"]);
    assert (two + [["p", "x"]]) + [["q", "x"]] == [["p"], ["p", "x", "y"], ["p", "x"], ["q", "x"]];
    assert Lost - {["q", "x"]} == ChainAfter - {["z", "y"]};
  }
}
