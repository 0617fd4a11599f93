/**
 * The fast-scroll section index of the song list: each maximal run of consecutive songs whose
 * titles start with the same upper-cased character becomes one section, remembered by its
 * letter and the position it starts at.
 */
module SongAdapter {
  import opened Text
  import opened Media

  /** `title[0]` is read for every song, so every title must have a first character. */
  predicate TitlesNonEmpty(songs: seq<Song>) {
    forall i :: 0 <= i < |songs| ==> songs[i].title != []
  }

  /** The upper-cased first character of each title, in list order. */
  function Initials(songs: seq<Song>): (l: seq<char>)
    requires TitlesNonEmpty(songs)
    ensures |l| == |songs|
    ensures forall i :: 0 <= i < |songs| ==> l[i] == UpperChar(songs[i].title[0])
  {
    seq(|songs|, i requires 0 <= i < |songs| => UpperChar(songs[i].title[0]))
  }

  /** A section: its letter and the position of its first song. */
  datatype Section = Section(letter: char, start: int)

  /** The maximal runs of equal characters, in order, each with the index it starts at. */
  function Runs(l: seq<char>): (r: seq<Section>)
    ensures |r| <= |l|
    ensures r == [] <==> l == []
    ensures r != [] ==> r[0] == Section(l[0], 0)
    decreases |l|
  {
    if l == [] then []
    else if |l| == 1 then [Section(l[0], 0)]
    else
      var r := Runs(l[..|l| - 1]);
      if l[|l| - 1] == l[|l| - 2] then r else r + [Section(l[|l| - 1], |l| - 1)]
  }

  /** Where run `k` ends: the next run's start, or the end of the list. */
  function RunEnd(r: seq<Section>, k: int, n: int): int
    requires 0 <= k < |r|
  {
    if k + 1 < |r| then r[k + 1].start else n
  }

  /** `r` is the list of maximal runs of `l`. */
  ghost predicate IsRuns(l: seq<char>, r: seq<Section>) {
    (l == [] <==> r == []) &&
    (r != [] ==> r[0].start == 0) &&
    (forall k :: 0 <= k < |r| ==> 0 <= r[k].start < |l|) &&
    (forall k :: 0 <= k < |r| - 1 ==> r[k].start < r[k + 1].start) &&
    (forall k, j :: 0 <= k < |r| && r[k].start <= j < RunEnd(r, k, |l|) ==> l[j] == r[k].letter) &&
    (forall k :: 0 < k < |r| ==> 0 < r[k].start < |l| && l[r[k].start - 1] != l[r[k].start])
  }

  /**
   * `Runs` splits the list into maximal runs: they start at 0, their starts increase, every
   * position inside a run carries the run's letter, and each later run starts where the
   * character changes.
   */
  lemma {:induction false} RunsAreMaximal(l: seq<char>)
    ensures IsRuns(l, Runs(l))
    decreases |l|
  {
    if |l| == 1 {
      assert RunEnd(Runs(l), 0, 1) == 1;
    } else if |l| > 1 {
      var init := l[..|l| - 1];
      RunsAreMaximal(init);
      assert l == init + [l[|l| - 1]];
      if l[|l| - 1] == l[|l| - 2] {
        ExtendLastRun(init, Runs(init), l[|l| - 1]);
      } else {
        StartNewRun(init, Runs(init), l[|l| - 1]);
      }
    }
  }

  lemma ExtendLastRun(init: seq<char>, r: seq<Section>, c: char)
    requires init != [] && IsRuns(init, r) && c == init[|init| - 1]
    ensures IsRuns(init + [c], r)
  {
    var l := init + [c];
    assert forall j :: 0 <= j < |init| ==> l[j] == init[j];
    forall k, j | 0 <= k < |r| && r[k].start <= j < RunEnd(r, k, |l|)
      ensures l[j] == r[k].letter
    {
      if j == |l| - 1 {
        assert r[k].start <= j - 1 < RunEnd(r, k, |init|);
      }
    }
  }

  /** With a new run for the last character, every position still carries its run's letter. */
  lemma NewRunLetters(init: seq<char>, r: seq<Section>, c: char)
    requires init != [] && IsRuns(init, r)
    ensures var l, r' := init + [c], r + [Section(c, |init|)];
            forall k, j :: 0 <= k < |r'| && r'[k].start <= j < RunEnd(r', k, |l|) ==> l[j] == r'[k].letter
  {
    var l := init + [c];
    var r' := r + [Section(c, |init|)];
    forall k, j | 0 <= k < |r'| && r'[k].start <= j < RunEnd(r', k, |l|)
      ensures l[j] == r'[k].letter
    {
      if k < |r| {
        assert r'[k] == r[k];
        assert RunEnd(r', k, |l|) == RunEnd(r, k, |init|);
        assert l[j] == init[j];
      }
    }
  }

  /** With a new run for the last character, the starts stay in range, increasing and at character changes. */
  lemma NewRunStarts(init: seq<char>, r: seq<Section>, c: char)
    requires init != [] && IsRuns(init, r) && c != init[|init| - 1]
    ensures var l, r' := init + [c], r + [Section(c, |init|)];
            (forall k :: 0 <= k < |r'| ==> 0 <= r'[k].start < |l|) &&
            (forall k :: 0 <= k < |r'| - 1 ==> r'[k].start < r'[k + 1].start)
  {
    var r' := r + [Section(c, |init|)];
    assert forall k :: 0 <= k < |r| ==> r'[k] == r[k];
  }

  lemma NewRunChanges(init: seq<char>, r: seq<Section>, c: char)
    requires init != [] && IsRuns(init, r) && c != init[|init| - 1]
    ensures var l, r' := init + [c], r + [Section(c, |init|)];
            forall k :: 0 < k < |r'| ==> 0 < r'[k].start < |l| && l[r'[k].start - 1] != l[r'[k].start]
  {
    var l := init + [c];
    var r' := r + [Section(c, |init|)];
    forall k | 0 < k < |r'|
      ensures 0 < r'[k].start < |l| && l[r'[k].start - 1] != l[r'[k].start]
    {
      if k < |r| {
        assert r'[k] == r[k];
        assert l[r[k].start] == init[r[k].start] && l[r[k].start - 1] == init[r[k].start - 1];
      } else {
        assert l[|init|] == c && l[|init| - 1] == init[|init| - 1];
      }
    }
  }

  lemma StartNewRun(init: seq<char>, r: seq<Section>, c: char)
    requires init != [] && IsRuns(init, r) && c != init[|init| - 1]
    ensures IsRuns(init + [c], r + [Section(c, |init|)])
  {
    NewRunLetters(init, r, c);
    NewRunStarts(init, r, c);
    NewRunChanges(init, r, c);
    assert (r + [Section(c, |init|)])[0].start == 0;
  }

  /** One character further, the open run either goes on or is closed and a new one opens. */
  lemma RunsNext(l: seq<char>, i: int, done: seq<Section>, current: Section)
    requires 0 < i < |l| && Runs(l[..i]) == done + [current] && l[i - 1] == current.letter
    ensures Runs(l[..i + 1]) == if l[i] == current.letter then done + [current] else done + [current, Section(l[i], i)]
  {
    var p := l[..i + 1];
    assert p[..|p| - 1] == l[..i];
    assert |p| > 1 && p[|p| - 1] == l[i] && p[|p| - 2] == l[i - 1];
  }

  /**
   * The loop state of the section pass after `i` songs: nothing read yet, or the runs of the
   * first `i` initials are the closed ones followed by the open run.
   */
  ghost predicate OpenRun(l: seq<char>, i: int, done: seq<Section>, current: char, start: int) {
    (i == 0 && done == [] && start == 0) ||
    (0 < i <= |l| && start < i && l[i - 1] == current && Runs(l[..i]) == done + [Section(current, start)])
  }

  /** Reading initial `i`: it extends the open run, or closes it and opens a new one. */
  lemma OpenRunStep(l: seq<char>, i: int, done: seq<Section>, current: char, start: int)
    requires 0 <= i < |l| && 0 <= start < |l| && l[start] == current
    requires OpenRun(l, i, done, current, start)
    ensures l[i] == current ==> OpenRun(l, i + 1, done, current, start)
    ensures l[i] != current ==> OpenRun(l, i + 1, done + [Section(current, start)], l[i], i)
  {
    if i == 0 {
      assert l[..1] == [l[0]];
    } else {
      RunsNext(l, i, done, Section(current, start));
      assert done + [Section(current, start), Section(l[i], i)] == done + [Section(current, start)] + [Section(l[i], i)];
    }
  }

  /** No two runs that follow each other share a letter. */
  lemma NeighbourRunsDiffer(l: seq<char>, k: int)
    requires 0 <= k < |Runs(l)| - 1
    ensures Runs(l)[k].letter != Runs(l)[k + 1].letter
  {
    var r := Runs(l);
    RunsAreMaximal(l);
    var s := r[k + 1].start;
    assert r[k].start <= s - 1 < RunEnd(r, k, |l|);
    assert r[k + 1].start <= s < RunEnd(r, k + 1, |l|);
  }

  /** The section letters of the runs. */
  function LettersOf(r: seq<Section>): (c: seq<char>)
    ensures |c| == |r|
    ensures forall k :: 0 <= k < |r| ==> c[k] == r[k].letter
  {
    seq(|r|, k requires 0 <= k < |r| => r[k].letter)
  }

  /** `sections.put(letter.toInt(), start)` for each run in turn: a later run with the same letter overwrites. */
  function StartsOf(r: seq<Section>): (m: map<int, int>)
    ensures forall k :: 0 <= k < |r| ==> r[k].letter as int in m
  {
    if r == [] then map[]
    else StartsOf(r[..|r| - 1])[r[|r| - 1].letter as int := r[|r| - 1].start]
  }

  /** Closing one more section appends its letter and records its start. */
  lemma CloseSection(done: seq<Section>, s: Section)
    ensures LettersOf(done + [s]) == LettersOf(done) + [s.letter]
    ensures StartsOf(done + [s]) == StartsOf(done)[s.letter as int := s.start]
  {
    assert (done + [s])[..|done|] == done;
  }

  /** After the last initial, closing the open run gives the sections of the whole list. */
  lemma LastSection(l: seq<char>, done: seq<Section>, current: char, start: int)
    requires l != [] && OpenRun(l, |l|, done, current, start)
    ensures LettersOf(Runs(l)) == LettersOf(done) + [current]
    ensures StartsOf(Runs(l)) == StartsOf(done)[current as int := start]
  {
    assert l[..|l|] == l;
    CloseSection(done, Section(current, start));
  }

  /** The index of the last run with letter `c`, or -1. */
  function LastWith(r: seq<Section>, c: char): (k: int)
    ensures -1 <= k < |r|
    ensures k == -1 <==> forall i :: 0 <= i < |r| ==> r[i].letter != c
    ensures 0 <= k ==> r[k].letter == c && forall i :: k < i < |r| ==> r[i].letter != c
  {
    if r == [] then -1
    else if r[|r| - 1].letter == c then |r| - 1
    else LastWith(r[..|r| - 1], c)
  }

  /** A letter's entry is the start of the last run with that letter; letters without a run have none. */
  lemma {:induction false} StartsOfLastWins(r: seq<Section>, c: char)
    ensures (c as int in StartsOf(r)) <==> LastWith(r, c) != -1
    ensures c as int in StartsOf(r) ==> StartsOf(r)[c as int] == r[LastWith(r, c)].start
  {
    if r != [] {
      StartsOfLastWins(r[..|r| - 1], c);
    }
  }

  /** `getPositionForSection` on given section state: the stored start of the section's letter, 0 past the end. */
  function PositionFor(letters: seq<char>, sections: map<int, int>, sectionIndex: int): (r: int)
    requires 0 <= sectionIndex
    ensures sectionIndex >= |letters| ==> r == 0
  {
    if sectionIndex < |letters| then
      var key := letters[sectionIndex] as int;
      if key in sections then sections[key] else 0
    else 0
  }

  /**
   * When no letter repeats across runs (a list sorted by title, say), section `k` points at
   * the start of run `k`: the first at 0, the starts strictly increasing.
   */
  lemma DistinctSectionPositions(l: seq<char>, k: int)
    requires forall i, j :: 0 <= i < j < |Runs(l)| ==> Runs(l)[i].letter != Runs(l)[j].letter
    requires 0 <= k < |Runs(l)|
    ensures PositionFor(LettersOf(Runs(l)), StartsOf(Runs(l)), k) == Runs(l)[k].start
    ensures PositionFor(LettersOf(Runs(l)), StartsOf(Runs(l)), 0) == 0
    ensures k > 0 ==> PositionFor(LettersOf(Runs(l)), StartsOf(Runs(l)), k - 1) < PositionFor(LettersOf(Runs(l)), StartsOf(Runs(l)), k)
  {
    var r := Runs(l);
    RunsAreMaximal(l);
    StartsOfLastWins(r, r[k].letter);
    StartsOfLastWins(r, r[0].letter);
    if k > 0 {
      StartsOfLastWins(r, r[k - 1].letter);
    }
  }

  /** A letter that recurs in a later run appears twice, and both entries point at the later run's start. */
  lemma RepeatedLetterPosition(l: seq<char>, i: int, j: int)
    requires 0 <= i < j < |Runs(l)| && Runs(l)[i].letter == Runs(l)[j].letter
    requires forall m :: j < m < |Runs(l)| ==> Runs(l)[m].letter != Runs(l)[j].letter
    ensures LettersOf(Runs(l))[i] == LettersOf(Runs(l))[j]
    ensures PositionFor(LettersOf(Runs(l)), StartsOf(Runs(l)), i) == Runs(l)[j].start
    ensures PositionFor(LettersOf(Runs(l)), StartsOf(Runs(l)), j) == Runs(l)[j].start
  {
    StartsOfLastWins(Runs(l), Runs(l)[j].letter);
  }

  /**
   * With distinct section letters, the section `getSectionForPosition` settles on (the last
   * one starting at or before the position, or 0) is the run holding that position.
   */
  lemma PositionInItsSection(l: seq<char>, p: int, s: int)
    requires forall i, j :: 0 <= i < j < |Runs(l)| ==> Runs(l)[i].letter != Runs(l)[j].letter
    requires 0 <= p < |l| && 0 <= s < |Runs(l)|
    requires s > 0 ==> PositionFor(LettersOf(Runs(l)), StartsOf(Runs(l)), s) <= p
    requires forall j :: s < j < |Runs(l)| ==> PositionFor(LettersOf(Runs(l)), StartsOf(Runs(l)), j) > p
    ensures Runs(l)[s].start <= p < RunEnd(Runs(l), s, |l|)
    ensures l[p] == Runs(l)[s].letter
  {
    var r := Runs(l);
    RunsAreMaximal(l);
    DistinctSectionPositions(l, s);
    if s + 1 < |r| {
      DistinctSectionPositions(l, s + 1);
    }
  }

  /** On the sections built for `songs`, section `k` points at the start of the last run with its letter. */
  lemma BuiltPosition(songs: seq<Song>, letters: seq<char>, sections: map<int, int>, k: int)
    requires 0 <= k
    ensures TitlesNonEmpty(songs) && letters == LettersOf(Runs(Initials(songs))) &&
            sections == StartsOf(Runs(Initials(songs))) && k < |letters| ==>
              var runs := Runs(Initials(songs));
              PositionFor(letters, sections, k) == runs[LastWith(runs, runs[k].letter)].start
  {
    if TitlesNonEmpty(songs) && letters == LettersOf(Runs(Initials(songs))) && k < |letters| {
      var runs := Runs(Initials(songs));
      StartsOfLastWins(runs, runs[k].letter);
    }
  }

  /**
   * The adapter's section state. `sections` is keyed by the letter's character code, as the
   * source's `SparseArray` is.
   */
  class SongAdapter {
    const songs: seq<Song>
    var sections: map<int, int>
    var sectionLetters: seq<char>

    constructor (songs: seq<Song>)
      requires TitlesNonEmpty(songs)
      ensures this.songs == songs
      ensures sectionLetters == LettersOf(Runs(Initials(songs)))
      ensures sections == StartsOf(Runs(Initials(songs)))
    {
      this.songs := songs;
      sections := map[];
      sectionLetters := [];
      new;
      SetupSections();
    }

    /** One pass over the songs, closing a section when the initial changes and then the last one. */
    method SetupSections()
      requires TitlesNonEmpty(songs)
      modifies this`sections, this`sectionLetters
      ensures sectionLetters == LettersOf(Runs(Initials(songs)))
      ensures sections == StartsOf(Runs(Initials(songs)))
    {
      var list := songs;
      var starts: map<int, int> := map[];
      var letters: seq<char> := [];
      ghost var l := Initials(list);
      ghost var done: seq<Section> := [];
      if |list| > 0 {
        var sectionStart := 0;
        var currentSection := UpperChar(list[0].title[0]);
        for i := 0 to |list|
          invariant 0 <= sectionStart < |list| && l[sectionStart] == currentSection
          invariant OpenRun(l, i, done, currentSection, sectionStart)
          invariant letters == LettersOf(done)
          invariant starts == StartsOf(done)
        {
          var firstChar := UpperChar(list[i].title[0]);
          assert firstChar == l[i];
          OpenRunStep(l, i, done, currentSection, sectionStart);
          if firstChar != currentSection {
            CloseSection(done, Section(currentSection, sectionStart));
            starts := starts[currentSection as int := sectionStart];
            letters := letters + [currentSection];
            done := done + [Section(currentSection, sectionStart)];
            currentSection := firstChar;
            sectionStart := i;
          }
        }
        LastSection(l, done, currentSection, sectionStart);
        starts := starts[currentSection as int := sectionStart];
        letters := letters + [currentSection];
      }
      sections := starts;
      sectionLetters := letters;
    }

    /**
     * `updateSongs(newSongs)`: the argument is not used; the sections are recomputed for the
     * adapter's own, unchanged list, so they come out as before.
     */
    method UpdateSongs(newSongs: seq<Song>)
      requires TitlesNonEmpty(songs)
      requires sectionLetters == LettersOf(Runs(Initials(songs))) && sections == StartsOf(Runs(Initials(songs)))
      modifies this`sections, this`sectionLetters
      ensures sectionLetters == old(sectionLetters) && sections == old(sections)
    {
      SetupSections();
    }

    /** `getSections`: the letters as one-character strings. */
    function GetSections(): (r: seq<string>)
      reads this
      ensures |r| == |sectionLetters|
      ensures forall k :: 0 <= k < |r| ==> r[k] == [sectionLetters[k]]
    {
      var letters := sectionLetters;
      seq(|letters|, k requires 0 <= k < |letters| => [letters[k]])
    }

    /** The section state is the one `setupSections` builds for the adapter's songs. */
    ghost predicate SectionsBuilt()
      reads this
    {
      TitlesNonEmpty(songs) &&
      sectionLetters == LettersOf(Runs(Initials(songs))) && sections == StartsOf(Runs(Initials(songs)))
    }

    /**
     * `getPositionForSection`: past the last section, 0; otherwise, on the sections built for the
     * songs, the start of the LAST run with that section's letter.
     */
    function GetPositionForSection(sectionIndex: int): (r: int)
      requires 0 <= sectionIndex
      reads this
      ensures sectionIndex >= |sectionLetters| ==> r == 0
      ensures SectionsBuilt() && sectionIndex < |sectionLetters| ==>
                var runs := Runs(Initials(songs));
                r == runs[LastWith(runs, runs[sectionIndex].letter)].start
    {
      BuiltPosition(songs, sectionLetters, sections, sectionIndex);
      PositionFor(sectionLetters, sections, sectionIndex)
    }

    /** `getSectionForPosition`: the last section whose start is not after the position, or 0. */
    method GetSectionForPosition(position: int) returns (section: int)
      ensures 0 <= section && (sectionLetters != [] ==> section < |sectionLetters|)
      ensures section > 0 ==> GetPositionForSection(section) <= position
      ensures forall j :: section < j < |sectionLetters| ==> GetPositionForSection(j) > position
    {
      section := 0;
      for i := 0 to |sectionLetters|
        invariant 0 <= section && (section == 0 || section < i)
        invariant section > 0 ==> GetPositionForSection(section) <= position
        invariant forall j :: section < j < i ==> GetPositionForSection(j) > position
      {
        if GetPositionForSection(i) <= position {
          section := i;
        }
      }
    }
  }
}
