/*
 * The Tkinter front end (Tkinter_GUI.py) as a class: its lists change in
 * place as TkinterLists specifies, and its configuration fields are read
 * from and written to the configuration file as TkinterConfig specifies.
 */
module TkinterGui {
  import opened Wrappers
  import opened PyText
  import opened TkinterConfig
  import opened TkinterLists

  // ------------------------------------------------------------- search

  /** The loop of `update_search_list`, given the row test's outcome for
      every catalog row: the names and numbers of the rows that pass, in
      catalog order. */
  method KeepRows(names: seq<string>, numbers: seq<int>, mask: seq<bool>)
    returns (shown: seq<string>, results: seq<int>)
    requires |names| == |numbers| == |mask|
    ensures shown == Pick(names, Hits(mask, |names|))
    ensures results == Pick(numbers, Hits(mask, |names|))
  {
    shown := [];
    results := [];
    var i := 0;
    while i < |names|
      invariant 0 <= i <= |names|
      invariant shown == Kept(names, mask, i)
      invariant results == Kept(numbers, mask, i)
    {
      if mask[i] {
        shown := shown + [names[i]];
        results := results + [numbers[i]];
      }
      i := i + 1;
    }
    KeptIsPick(names, mask, |names|);
    KeptIsPick(numbers, mask, |names|);
  }

  // ------------------------------------------------------ configuration

  /** One more item read by the toggle loop of `load_configuration`: its
      toggle follows the others. */
  lemma ToggleValuesSnoc(items: seq<string>, i: nat)
    requires i < |items|
    requires forall j :: 0 <= j <= i ==> Toggle(items[j]).Ok?
    ensures ToggleValues(items[..i + 1]) == ToggleValues(items[..i]) + [Toggle(items[i]).value]
  {
    assert items[..i + 1] == items[..i] + [items[i]];
  }

  /** One more item read by the toggle loop: its category follows the
      others. */
  lemma CategoriesSnoc(items: seq<string>, i: nat)
    requires i < |items|
    ensures Categories(items[..i + 1]) == Categories(items[..i]) + [Category(items[i])]
  {
    assert items[..i + 1] == items[..i] + [items[i]];
  }

  /** One more item written by the toggle loop of `save_configuration`. */
  lemma LaterItemsSnoc(c: Config, first: string, i: nat)
    requires 1 <= i < |c.categories| && i < |c.toggles|
    ensures [first] + LaterItems(c, i + 1)
            == ([first] + LaterItems(c, i)) + [SavedItem(c.categories[i], c.toggles[i])]
  {
    assert LaterItems(c, i + 1) == LaterItems(c, i) + [SavedItem(c.categories[i], c.toggles[i])];
  }

  /** One more entry written by the supplementary loop of
      `save_configuration`. */
  lemma PairTextsSnoc(entries: seq<seq<string>>, i: nat)
    requires i < |entries| && i < FirstUnpaired(entries) + 1 && |entries[i]| >= 2
    ensures forall j :: 0 <= j <= i ==> |entries[j]| >= 2
    ensures PairTexts(entries[..i + 1]) == PairTexts(entries[..i]) + [entries[i][0] + "=" + entries[i][1]]
  {
    assert entries[..i + 1] == entries[..i] + [entries[i]];
  }

  // ------------------------------------------------------------------ GUI

  /** The tracker the window holds is `sat_tracker.tracker.Tracker`, which
      has no `update_objects` method: the call with which `search_select`,
      `delete_all` and `selection_list_delete` end raises AttributeError,
      after their lists were updated and before `update_plots`. */
  const UpdateObjectsError: string := "AttributeError"


  class PySatGui {
    var databaseToggle: seq<bool>
    var databaseCategories: seq<string>
    var databaseSources: seq<Option<string>>
    var databaseSupp: seq<seq<string>>
    var trackableNames: seq<string>
    var trackableNumbers: seq<int>
    /** The names the search list box shows. */
    var searchListBox: seq<string>
    var searchResults: seq<int>
    /** The names the selected list box shows. */
    var trackedSatellites: seq<string>
    var selectedNumbers: seq<int>

    /** The configuration fields. */
    function Cfg(): Config
      reads this
    {
      Config(databaseToggle, databaseCategories, databaseSources, databaseSupp)
    }

    /** The catalog, search and tracked lists. */
    function Lists(): (seq<string>, seq<int>, seq<string>, seq<int>, seq<string>, seq<int>)
      reads this
    {
      (trackableNames, trackableNumbers, searchListBox, searchResults, trackedSatellites, selectedNumbers)
    }

    /** The catalog lists are parallel, the search list box shows one name
        per result, and there are at least as many selected numbers as
        tracked names, so a delete can pop both lists. */
    predicate Valid()
      reads this
    {
      |trackableNames| == |trackableNumbers|
      && |searchListBox| == |searchResults|
      && |trackedSatellites| <= |selectedNumbers|
    }

    /** `__init__` up to `initialize_UI`: no configuration, no catalog and
        nothing searched or tracked. */
    constructor()
      ensures Valid()
      ensures Cfg() == Config([], [], [], [])
      ensures Lists() == ([], [], [], [], [], [])
    {
      databaseToggle := [];
      databaseCategories := [];
      databaseSources := [];
      databaseSupp := [];
      trackableNames := [];
      trackableNumbers := [];
      searchListBox := [];
      searchResults := [];
      trackedSatellites := [];
      selectedNumbers := [];
    }

    /** The search and selected bars of `initialize_UI`, built from the
        catalog's names and numbers. The catalog rows are sorted and
        unpacked into the two catalog lists, which raises ValueError before
        any assignment when there is no row; then the empty search term
        shows every row and the tracked names are cleared. */
    method BuildSearchBar(names: seq<string>, numbers: seq<int>) returns (r: Result<()>)
      modifies this
      ensures r.Err? <==> Zip(names, numbers) == []
      ensures r.Err? ==> r.error == "ValueError" && Lists() == old(Lists())
      ensures r.Ok? ==> trackableNames == Names(SortRows(Zip(names, numbers)))
      ensures r.Ok? ==> trackableNumbers == Numbers(SortRows(Zip(names, numbers)))
      ensures r.Ok? ==> searchListBox == trackableNames && searchResults == trackableNumbers
      ensures r.Ok? ==> trackedSatellites == [] && selectedNumbers == old(selectedNumbers)
      ensures r.Ok? ==> Valid()
      ensures Cfg() == old(Cfg())
    {
      var rows := Zip(names, numbers);
      if rows == [] {
        return Err("ValueError");
      }
      var sorted := SortRows(rows);
      trackableNames := Names(sorted);
      trackableNumbers := Numbers(sorted);
      UpdateSearchList("");
      SearchAllOnEmptyTerm(trackableNames, trackableNumbers);
      trackedSatellites := [];
      r := Ok(());
    }

    /** `update_search_list`: the list box and the results become the
        matching catalog rows, in catalog order. */
    method UpdateSearchList(term: string)
      requires |trackableNames| == |trackableNumbers|
      modifies this
      ensures trackableNames == old(trackableNames) && trackableNumbers == old(trackableNumbers)
      ensures searchListBox == Pick(trackableNames, Hits(Mask(term, trackableNames, trackableNumbers), |trackableNames|))
      ensures searchResults == Pick(trackableNumbers, Hits(Mask(term, trackableNames, trackableNumbers), |trackableNames|))
      ensures trackedSatellites == old(trackedSatellites) && selectedNumbers == old(selectedNumbers)
      ensures Cfg() == old(Cfg())
    {
      var mask := Mask(term, trackableNames, trackableNumbers);
      var shown, results := KeepRows(trackableNames, trackableNumbers, mask);
      searchListBox := shown;
      searchResults := results;
    }

    /** `search_select` on the search list box's selected positions. The
        appends happen on the tracked lists themselves, so they stay when
        the final unpacking raises; when it does not, the tracker update
        raises. */
    method SearchSelect(selection: seq<nat>) returns (r: Result<()>)
      requires Valid()
      requires forall k :: 0 <= k < |selection| ==> selection[k] < |searchListBox|
      modifies this
      ensures (trackedSatellites, selectedNumbers)
              == (Select(old(trackedSatellites), old(selectedNumbers), Picked(old(searchListBox), old(searchResults), selection)).0,
                  Select(old(trackedSatellites), old(selectedNumbers), Picked(old(searchListBox), old(searchResults), selection)).1)
      ensures r.Err?
      ensures r.error == if Select(old(trackedSatellites), old(selectedNumbers), Picked(old(searchListBox), old(searchResults), selection)).2.Ok?
                         then UpdateObjectsError else "ValueError"
      ensures Valid()
      ensures searchListBox == old(searchListBox) && searchResults == old(searchResults)
      ensures trackableNames == old(trackableNames) && trackableNumbers == old(trackableNumbers)
      ensures Cfg() == old(Cfg())
    {
      ghost var picks := Picked(searchListBox, searchResults, selection);
      var k := 0;
      while k < |selection|
        invariant 0 <= k <= |selection|
        invariant (trackedSatellites, selectedNumbers)
                  == Merge(old(trackedSatellites), old(selectedNumbers), picks[..k])
        invariant searchListBox == old(searchListBox) && searchResults == old(searchResults)
        invariant trackableNames == old(trackableNames) && trackableNumbers == old(trackableNumbers)
        invariant Cfg() == old(Cfg())
      {
        var number := searchResults[selection[k]];
        var entered := searchListBox[selection[k]];
        assert picks[..k + 1][..k] == picks[..k];
        assert picks[k] == (entered, number);
        if number !in selectedNumbers {
          selectedNumbers := selectedNumbers + [number];
          trackedSatellites := trackedSatellites + [entered];
        }
        k := k + 1;
      }
      assert picks[..|selection|] == picks;
      var rows := Zip(trackedSatellites, selectedNumbers);
      if rows == [] {
        return Err("ValueError");
      }
      var sorted := SortRows(rows);
      trackedSatellites := Names(sorted);
      selectedNumbers := Numbers(sorted);
      return Err(UpdateObjectsError);
    }

    /** `delete_all` as written: the tracked names go, the numbers stay,
        and the tracker update raises. */
    method DeleteAll() returns (r: Result<()>)
      modifies this
      ensures r == Err(UpdateObjectsError)
      ensures trackedSatellites == [] && selectedNumbers == old(selectedNumbers)
      ensures searchListBox == old(searchListBox) && searchResults == old(searchResults)
      ensures trackableNames == old(trackableNames) && trackableNumbers == old(trackableNumbers)
      ensures Cfg() == old(Cfg())
    {
      trackedSatellites := [];
      r := Err(UpdateObjectsError);
    }

    /** `delete_all` clearing the numbers with the names; the tracker
        update still raises. */
    method DeleteAllFixed() returns (r: Result<()>)
      modifies this
      ensures r == Err(UpdateObjectsError)
      ensures trackedSatellites == [] && selectedNumbers == []
      ensures searchListBox == old(searchListBox) && searchResults == old(searchResults)
      ensures trackableNames == old(trackableNames) && trackableNumbers == old(trackableNumbers)
      ensures Cfg() == old(Cfg())
    {
      trackedSatellites := [];
      selectedNumbers := [];
      r := Err(UpdateObjectsError);
    }

    /** `selection_list_delete` on the selected list box's positions, which
        the list box gives in ascending order: popping them from the last
        removes exactly those positions from both lists. The tracker update
        then raises. */
    method SelectionListDelete(selection: seq<nat>) returns (r: Result<()>)
      requires Valid()
      requires forall k :: 0 <= k < |selection| ==> selection[k] < |trackedSatellites|
      requires forall k, l :: 0 <= k < l < |selection| ==> selection[k] < selection[l]
      modifies this
      ensures trackedSatellites == Without(old(trackedSatellites), Positions(selection, 0), 0)
      ensures selectedNumbers == Without(old(selectedNumbers), Positions(selection, 0), 0)
      ensures r == Err(UpdateObjectsError)
      ensures Valid()
      ensures searchListBox == old(searchListBox) && searchResults == old(searchResults)
      ensures trackableNames == old(trackableNames) && trackableNumbers == old(trackableNumbers)
      ensures Cfg() == old(Cfg())
    {
      WithoutNothing(trackedSatellites, 0);
      WithoutNothing(selectedNumbers, 0);
      var k := |selection|;
      assert Positions(selection, k) == {};
      while k > 0
        invariant 0 <= k <= |selection|
        invariant trackedSatellites == Without(old(trackedSatellites), Positions(selection, k), 0)
        invariant selectedNumbers == Without(old(selectedNumbers), Positions(selection, k), 0)
        invariant searchListBox == old(searchListBox) && searchResults == old(searchResults)
        invariant trackableNames == old(trackableNames) && trackableNumbers == old(trackableNumbers)
        invariant Cfg() == old(Cfg())
      {
        k := k - 1;
        var i := selection[k];
        assert forall j :: k + 1 <= j < |selection| ==> selection[j] > i;
        assert Positions(selection, k) == Positions(selection, k + 1) + {i as int};
        WithoutPop(old(trackedSatellites), Positions(selection, k + 1), i);
        WithoutPop(old(selectedNumbers), Positions(selection, k + 1), i);
        trackedSatellites := trackedSatellites[..i] + trackedSatellites[i + 1..];
        selectedNumbers := selectedNumbers[..i] + selectedNumbers[i + 1..];
      }
      WithoutLength(old(trackedSatellites), Positions(selection, 0), 0);
      WithoutLength(old(selectedNumbers), Positions(selection, 0), 0);
      r := Err(UpdateObjectsError);
    }

    /** `load_configuration` on the text of the configuration file: the
        fields become those of `LoadConfig`, including the ones already set
        when an exception leaves the method. */
    method LoadConfiguration(text: string) returns (r: Result<()>)
      modifies this
      ensures (Cfg(), r) == LoadConfig(ReadLines(text), old(Cfg()))
      ensures Lists() == old(Lists())
    {
      var lines := ReadLines(text);
      databaseToggle := [];
      databaseCategories := [];
      if |lines| == 0 {
        return Err("IndexError");
      }
      var items := Items(lines[0]);
      if items.Err? {
        return Err(items.error);
      }
      var line1 := items.value;
      r := LoadToggles(line1);
      if r.Err? {
        return;
      }
      ghost var c2 := Cfg();
      assert LoadConfig(lines, old(Cfg())) == LoadLinks(lines, c2);
      r := LoadSources(lines);
    }

    /** The toggle loop of `load_configuration`: a toggle and a category
        per item, up to the first item whose toggle raises. */
    method LoadToggles(line1: seq<string>) returns (r: Result<()>)
      requires databaseToggle == [] && databaseCategories == []
      modifies this
      ensures databaseToggle == ToggleValues(line1[..FirstBad(line1)])
      ensures databaseCategories == Categories(line1[..FirstBad(line1)])
      ensures r == if FirstBad(line1) < |line1| then Err(Toggle(line1[FirstBad(line1)]).error) else Ok(())
      ensures databaseSources == old(databaseSources) && databaseSupp == old(databaseSupp)
      ensures Lists() == old(Lists())
    {
      var i := 0;
      while i < |line1|
        invariant 0 <= i <= |line1|
        invariant i <= FirstBad(line1)
        invariant databaseToggle == ToggleValues(line1[..i])
        invariant databaseCategories == Categories(line1[..i])
        invariant databaseSources == old(databaseSources) && databaseSupp == old(databaseSupp)
        invariant Lists() == old(Lists())
      {
        var toggle := Toggle(line1[i]);
        if toggle.Err? {
          return Err(toggle.error);
        }
        ToggleValuesSnoc(line1, i);
        CategoriesSnoc(line1, i);
        databaseToggle := databaseToggle + [toggle.value];
        databaseCategories := databaseCategories + [Category(line1[i])];
        i := i + 1;
      }
      assert line1[..|line1|] == line1;
      return Ok(());
    }

    /** The links line of `load_configuration`: one source per category. */
    method LoadSources(lines: seq<string>) returns (r: Result<()>)
      requires |lines| >= 1
      modifies this
      ensures (Cfg(), r) == LoadLinks(lines, old(Cfg()))
      ensures Lists() == old(Lists())
    {
      if |lines| < 2 {
        return Err("IndexError");
      }
      var links := Items(lines[1]);
      if links.Err? {
        return Err(links.error);
      }
      var filled := FillSources(links.value);
      if !filled {
        return Err("IndexError");
      }
      ghost var c3 := Cfg();
      assert LoadLinks(lines, old(Cfg())) == LoadSupp(lines, c3);
      r := LoadSupplementary(lines);
    }

    /** The loop of `load_configuration` over the categories: `None` for
        each, then the link at its position, until the links run out with
        IndexError (`filled` false). */
    method FillSources(links: seq<string>) returns (filled: bool)
      modifies this
      ensures filled <==> |databaseCategories| <= |links|
      ensures Cfg() == old(Cfg()).(sources := Filled(links, |databaseCategories|, Min(|databaseCategories|, |links|)))
      ensures Lists() == old(Lists())
    {
      var n := |databaseCategories|;
      databaseSources := seq(n, _ => None);
      assert databaseSources == Filled(links, n, 0);
      var i := 0;
      while i < n
        invariant 0 <= i <= n && i <= |links|
        invariant Cfg() == old(Cfg()).(sources := Filled(links, n, i))
        invariant Lists() == old(Lists())
      {
        if i >= |links| {
          return false;
        }
        databaseSources := databaseSources[i := Some(links[i])];
        assert databaseSources == Filled(links, n, i + 1);
        i := i + 1;
      }
      return true;
    }

    /** The supplementary line of `load_configuration`: one entry per
        `;`-separated part, split at its `=`, when the line has more than
        its tag. */
    method LoadSupplementary(lines: seq<string>) returns (r: Result<()>)
      requires |lines| >= 2
      modifies this
      ensures (Cfg(), r) == LoadSupp(lines, old(Cfg()))
      ensures Lists() == old(Lists())
    {
      databaseSupp := [];
      if |lines| < 3 {
        return Err("IndexError");
      }
      var line3 := Tokens(lines[2]);
      if |line3| != 1 {
        if |line3| == 0 {
          return Err("IndexError");
        }
        LoadEntries(SplitOn(line3[1], ';'));
      }
      return Ok(());
    }

    /** The loop of `load_configuration` over the supplementary entries:
        each is split at its `=`. */
    method LoadEntries(entries: seq<string>)
      requires databaseSupp == []
      modifies this
      ensures Cfg() == old(Cfg()).(supp := Pairs(entries))
      ensures Lists() == old(Lists())
    {
      var j := 0;
      while j < |entries|
        invariant 0 <= j <= |entries|
        invariant Cfg() == old(Cfg()).(supp := Pairs(entries[..j]))
        invariant Lists() == old(Lists())
      {
        assert entries[..j + 1] == entries[..j] + [entries[j]];
        databaseSupp := databaseSupp + [SplitOn(entries[j], '=')];
        j := j + 1;
      }
      assert entries[..|entries|] == entries;
    }

    /** The toggle line `save_configuration` writes, up to its closing
        brace, once its first item is `first`; a toggle without a category
        raises IndexError. */
    method WriteToggleLine(first: string) returns (text: string, r: Result<()>)
      requires |databaseCategories| > 0 && |databaseToggle| > 0
      ensures text == "DEFAULT_TOGGLE{"
                      + JoinOn([first] + LaterItems(Cfg(), Min(|databaseToggle|, |databaseCategories|)), ';')
      ensures r.Ok? <==> |databaseToggle| <= |databaseCategories|
      ensures r.Err? ==> r.error == "IndexError"
    {
      ghost var c := Cfg();
      var categories := databaseCategories;
      var toggles := databaseToggle;
      text := "DEFAULT_TOGGLE{" + first;
      assert [first] + LaterItems(c, 1) == [first];
      var i := 1;
      while i < |toggles|
        invariant 1 <= i <= |toggles| && i <= |categories|
        invariant text == "DEFAULT_TOGGLE{" + JoinOn([first] + LaterItems(c, i), ';')
      {
        if i >= |categories| {
          return text, Err("IndexError");
        }
        var item := SavedItem(categories[i], toggles[i]);
        LaterItemsSnoc(c, first, i);
        JoinOnSnoc([first] + LaterItems(c, i), item, ';');
        text := text + ";" + item;
        i := i + 1;
      }
      return text, Ok(());
    }

    /** `save_configuration` as written, given the lines it reads from the
        old file: the new file's text, up to where an exception stops it. */
    method SaveConfiguration(lines: seq<string>) returns (text: string, r: Result<()>)
      ensures (text, r) == SavedAsWritten(Cfg(), lines)
    {
      if |databaseCategories| == 0 || |databaseToggle| == 0 {
        return "DEFAULT_TOGGLE{", Err("IndexError");
      }
      var first := databaseCategories[0] + "=" + Bit(databaseToggle[0]);
      assert SavedAsWritten(Cfg(), lines) == SaveWith(Cfg(), lines, first, Shifted(databaseSupp));
      text, r := WriteToggleLine(first);
      if r.Err? {
        return;
      }
      text := text + "}\n";
      if |lines| < 2 {
        return text, Err("IndexError");
      }
      text := text + lines[1] + "SUPP_SOURCES{";
      var body, ok := WriteSuppSourcesAsWritten();
      ghost var entries := Shifted(databaseSupp);
      if !ok {
        return text + body, Err("IndexError");
      }
      assert entries[..|entries|] == entries;
      return text + body + "}\n", Ok(());
    }

    /** The supplementary entries as `save_configuration` writes them:
        entry 0 first, then entries 0 to len-2, each as `name=link`, with
        `;` between them; `ok` is false when an entry without a link
        raised IndexError. */
    method WriteSuppSourcesAsWritten() returns (body: string, ok: bool)
      ensures ok <==> FirstUnpaired(Shifted(databaseSupp)) == |databaseSupp|
      ensures body == JoinOrEmpty(PairTexts(Shifted(databaseSupp)[..FirstUnpaired(Shifted(databaseSupp))]))
    {
      var supp := databaseSupp;
      ghost var entries := Shifted(supp);
      if |supp| == 0 {
        assert PairTexts(entries[..0]) == [];
        return "", true;
      }
      assert entries[0] == supp[0];
      if |supp[0]| < 2 {
        assert PairTexts(entries[..0]) == [];
        return "", false;
      }
      body := supp[0][0] + "=" + supp[0][1];
      assert PairTexts(entries[..1]) == [body];
      var i := 0;
      while i < |supp| - 1
        invariant 0 <= i <= |supp| - 1
        invariant i + 1 <= FirstUnpaired(entries)
        invariant body == JoinOn(PairTexts(entries[..i + 1]), ';')
      {
        assert entries[i + 1] == supp[i];
        if |supp[i]| < 2 {
          assert FirstUnpaired(entries) == i + 1;
          return body, false;
        }
        var pair := supp[i][0] + "=" + supp[i][1];
        PairTextsSnoc(entries, i + 1);
        JoinOnSnoc(PairTexts(entries[..i + 1]), pair, ';');
        body := body + ";" + pair;
        i := i + 1;
      }
      assert FirstUnpaired(entries) == |entries| == i + 1;
      return body, true;
    }

    /** `save_configuration` writing every category with `_` for its
        spaces and walking every supplementary entry once. */
    method SaveConfigurationFixed(lines: seq<string>) returns (text: string, r: Result<()>)
      ensures (text, r) == SavedFixed(Cfg(), lines)
    {
      if |databaseCategories| == 0 || |databaseToggle| == 0 {
        return "DEFAULT_TOGGLE{", Err("IndexError");
      }
      var first := SavedItem(databaseCategories[0], databaseToggle[0]);
      assert SavedFixed(Cfg(), lines) == SaveWith(Cfg(), lines, first, databaseSupp);
      text, r := WriteToggleLine(first);
      if r.Err? {
        return;
      }
      text := text + "}\n";
      if |lines| < 2 {
        return text, Err("IndexError");
      }
      text := text + lines[1] + "SUPP_SOURCES{";
      var body, ok := WriteSuppSources();
      if !ok {
        return text + body, Err("IndexError");
      }
      assert databaseSupp[..|databaseSupp|] == databaseSupp;
      return text + body + "}\n", Ok(());
    }

    /** The supplementary entries, each once, as `name=link` with `;`
        between them; `ok` is false when an entry without a link raised
        IndexError. */
    method WriteSuppSources() returns (body: string, ok: bool)
      ensures ok <==> FirstUnpaired(databaseSupp) == |databaseSupp|
      ensures body == JoinOrEmpty(PairTexts(databaseSupp[..FirstUnpaired(databaseSupp)]))
    {
      var supp := databaseSupp;
      body := "";
      var i := 0;
      while i < |supp|
        invariant 0 <= i <= |supp|
        invariant i <= FirstUnpaired(supp)
        invariant body == JoinOrEmpty(PairTexts(supp[..i]))
      {
        if |supp[i]| < 2 {
          return body, false;
        }
        var pair := supp[i][0] + "=" + supp[i][1];
        PairTextsSnoc(supp, i);
        if i == 0 {
          body := body + pair;
        } else {
          JoinOnSnoc(PairTexts(supp[..i]), pair, ';');
          body := body + ";" + pair;
        }
        i := i + 1;
      }
      return body, true;
    }
  }
}
