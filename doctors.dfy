/**
 * The specialist directory (src/pages/Doctors.jsx): the search, specialization and
 * minimum-rating filters over the doctor list, and the row of rating stars.
 */
module Doctors {
  import opened Wrappers
  import opened JsText
  import opened Seqs

  /** A directory entry; every field the page reads may be absent. */
  datatype Doctor = Doctor(
    fullName: Option<string>,
    specialization: Option<string>,
    hospitalAffiliation: Option<string>,
    rating: Option<real>)

  /** The value of the two menus that switches their filter off. */
  const All: string := "all"

  /** The values of the minimum-rating menu besides "all". */
  const RatingMenu: seq<string> := ["4.5", "4.0", "3.5", "3.0"]

  /** `parseFloat` of a value of the minimum-rating menu. */
  function MenuRating(choice: string): (min: real)
    requires choice in RatingMenu
    ensures 3.0 <= min <= 4.5
  {
    match choice
    case "4.5" => 4.5
    case "4.0" => 4.0
    case "3.5" => 3.5
    case _ => 3.0
  }

  /** `doctor.rating || 0`: a missing rating and a rating of 0 both count as 0. */
  function RatingOrZero(rating: Option<real>): real {
    if rating.Some? then rating.value else 0.0
  }

  /** `field?.toLowerCase().includes(t)`, false when the field is absent. */
  predicate FieldHas(field: Option<string>, t: string) {
    field.Some? && Includes(ToLowerCase(field.value), t)
  }

  predicate HitsSearch(term: string, d: Doctor)
    ensures HitsSearch(term, d) ==> d.fullName.Some? || d.specialization.Some? || d.hospitalAffiliation.Some?
  {
    var t := ToLowerCase(term);
    FieldHas(d.fullName, t) || FieldHas(d.specialization, t) || FieldHas(d.hospitalAffiliation, t)
  }

  predicate HasSpecialization(choice: string, d: Doctor) {
    FieldHas(d.specialization, ToLowerCase(choice))
  }

  /** `filterDoctors`: each active filter narrows the list in turn. */
  function FilterDoctors(doctors: seq<Doctor>, searchTerm: string, specializationFilter: string,
                         ratingFilter: string): (shown: seq<Doctor>)
    requires ratingFilter == All || ratingFilter in RatingMenu
    ensures |shown| <= |doctors|
    ensures forall i :: 0 <= i < |shown| ==>
              shown[i] in doctors && KeepDoctor(searchTerm, specializationFilter, ratingFilter, shown[i])
  {
    var bySearch :=
      if searchTerm != "" then Filter(doctors, (d: Doctor) => HitsSearch(searchTerm, d))
      else doctors;
    var bySpecialization :=
      if specializationFilter != All then Filter(bySearch, (d: Doctor) => HasSpecialization(specializationFilter, d))
      else bySearch;
    if ratingFilter != All then
      var minRating := MenuRating(ratingFilter);
      Filter(bySpecialization, (d: Doctor) => RatingOrZero(d.rating) >= minRating)
    else bySpecialization
  }

  /** The three filters, each one holding trivially when it is switched off. */
  predicate SearchKeeps(searchTerm: string, d: Doctor) {
    searchTerm == "" || HitsSearch(searchTerm, d)
  }

  predicate SpecializationKeeps(specializationFilter: string, d: Doctor) {
    specializationFilter == All || HasSpecialization(specializationFilter, d)
  }

  predicate RatingKeeps(ratingFilter: string, d: Doctor) {
    ratingFilter == All || (ratingFilter in RatingMenu && RatingOrZero(d.rating) >= MenuRating(ratingFilter))
  }

  /** A doctor stays listed exactly when every active filter accepts them. */
  predicate KeepDoctor(searchTerm: string, specializationFilter: string, ratingFilter: string, d: Doctor) {
    SearchKeeps(searchTerm, d) && SpecializationKeeps(specializationFilter, d) && RatingKeeps(ratingFilter, d)
  }

  /** The chained filters are one filter by the conjunction of the active predicates. */
  lemma FilterDoctorsIsOneFilter(doctors: seq<Doctor>, searchTerm: string, specializationFilter: string,
                                 ratingFilter: string)
    requires ratingFilter == All || ratingFilter in RatingMenu
    ensures FilterDoctors(doctors, searchTerm, specializationFilter, ratingFilter) ==
            Filter(doctors, (d: Doctor) => KeepDoctor(searchTerm, specializationFilter, ratingFilter, d))
  {
    var s := (d: Doctor) => SearchKeeps(searchTerm, d);
    var p := (d: Doctor) => SpecializationKeeps(specializationFilter, d);
    var q := (d: Doctor) => RatingKeeps(ratingFilter, d);
    var sp := (d: Doctor) => SearchKeeps(searchTerm, d) && SpecializationKeeps(specializationFilter, d);
    var keep := (d: Doctor) => KeepDoctor(searchTerm, specializationFilter, ratingFilter, d);
    var bySearch := Filter(doctors, s);
    if searchTerm == "" {
      FilterKeepsAll(doctors, s);
    } else {
      FilterCongruent(doctors, s, (d: Doctor) => HitsSearch(searchTerm, d));
    }
    var bySpecialization := Filter(bySearch, p);
    if specializationFilter == All {
      FilterKeepsAll(bySearch, p);
    } else {
      FilterCongruent(bySearch, p, (d: Doctor) => HasSpecialization(specializationFilter, d));
    }
    var byRating := Filter(bySpecialization, q);
    if ratingFilter == All {
      FilterKeepsAll(bySpecialization, q);
    } else {
      var minRating := MenuRating(ratingFilter);
      FilterCongruent(bySpecialization, q, (d: Doctor) => RatingOrZero(d.rating) >= minRating);
    }
    assert FilterDoctors(doctors, searchTerm, specializationFilter, ratingFilter) == byRating;
    FilterFilter(doctors, s, p, sp);
    FilterFilter(doctors, sp, q, keep);
  }

  /** A doctor of the list is shown if and only if every active filter accepts them. */
  lemma ShownIffKept(doctors: seq<Doctor>, searchTerm: string, specializationFilter: string,
                     ratingFilter: string, i: nat)
    requires ratingFilter == All || ratingFilter in RatingMenu
    requires i < |doctors|
    ensures doctors[i] in FilterDoctors(doctors, searchTerm, specializationFilter, ratingFilter) <==>
            KeepDoctor(searchTerm, specializationFilter, ratingFilter, doctors[i])
  {
    FilterDoctorsIsOneFilter(doctors, searchTerm, specializationFilter, ratingFilter);
    var shown := FilterDoctors(doctors, searchTerm, specializationFilter, ratingFilter);
    if doctors[i] in shown {
      var j :| 0 <= j < |shown| && shown[j] == doctors[i];
    }
  }

  /** The listed doctors keep their stored order. */
  lemma FilterDoctorsIsSubsequence(doctors: seq<Doctor>, searchTerm: string, specializationFilter: string,
                                   ratingFilter: string)
    requires ratingFilter == All || ratingFilter in RatingMenu
    ensures IsSubsequence(FilterDoctors(doctors, searchTerm, specializationFilter, ratingFilter), doctors)
  {
    FilterDoctorsIsOneFilter(doctors, searchTerm, specializationFilter, ratingFilter);
    FilterIsSubsequence(doctors, (d: Doctor) => KeepDoctor(searchTerm, specializationFilter, ratingFilter, d));
  }

  /**
   * The specialization menu tests for a substring, not for equality: the menu value
   * "retinal" selects a doctor whose specialization is "Retinal Specialist".
   */
  lemma SpecializationIsSubstringTest()
    ensures HasSpecialization("retinal", Doctor(None, Some("Retinal Specialist"), None, None))
  {
    var lowered := ToLowerCase("Retinal Specialist");
    assert lowered[..7] == "retinal";
    assert ToLowerCase("retinal") == "retinal";
    assert OccursAt(lowered, "retinal", 0);
  }

  /** An unrated doctor is rated 0 and so passes no minimum-rating choice of the menu. */
  lemma UnratedFailsEveryMinimum(choice: string, d: Doctor)
    requires choice in RatingMenu && d.rating.None?
    ensures !KeepDoctor("", All, choice, d)
  {
  }

  // ---------------------------------------------------------------- stars

  datatype Star = Full | Half | Empty

  /** `Math.ceil` on a real. */
  function Ceil(r: real): (c: int)
    ensures (c - 1) as real < r <= c as real
  {
    var f := (-r).Floor;
    assert f as real <= -r < f as real + 1.0;
    -f
  }

  /** `n` copies of `s`; none when `n` is not positive, like a `for` loop that never runs. */
  function Repeat(n: int, s: Star): (r: seq<Star>)
    ensures |r| == if n > 0 then n else 0
    ensures forall i :: 0 <= i < |r| ==> r[i] == s
  {
    if n <= 0 then [] else Repeat(n - 1, s) + [s]
  }

  /** The star row of a rating: its floor in full stars, a half star, then `5 - ceil` empty stars. */
  function StarRow(rating: Option<real>): (row: seq<Star>)
    ensures forall i, j :: 0 <= i < j < |row| ==> Fill(row[i]) >= Fill(row[j])
  {
    var r := RatingOrZero(rating);
    Repeat(r.Floor, Full) + (if r != r.Floor as real then [Half] else []) + Repeat(5 - Ceil(r), Empty)
  }

  /** How much of a star is drawn: the row never draws more after drawing less. */
  function Fill(s: Star): nat {
    match s
    case Full => 2
    case Half => 1
    case Empty => 0
  }

  /** `renderStars(rating)`: the three loops pushing stars into the row. */
  method RenderStars(rating: Option<real>) returns (stars: seq<Star>)
    ensures stars == StarRow(rating)
  {
    stars := [];
    var r := RatingOrZero(rating);
    var fullStars := r.Floor;
    var hasHalfStar := r != fullStars as real;
    var i := 0;
    while i < fullStars
      invariant 0 <= i <= if fullStars > 0 then fullStars else 0
      invariant stars == Repeat(i, Full)
    {
      stars := stars + [Full];
      i := i + 1;
    }
    assert stars == Repeat(fullStars, Full);
    if hasHalfStar {
      stars := stars + [Half];
    }
    var head := stars;
    var remainingStars := 5 - Ceil(r);
    i := 0;
    while i < remainingStars
      invariant 0 <= i <= if remainingStars > 0 then remainingStars else 0
      invariant stars == head + Repeat(i, Empty)
    {
      stars := stars + [Empty];
      i := i + 1;
    }
  }

  function CountOf(row: seq<Star>, s: Star): nat {
    if row == [] then 0 else (if row[0] == s then 1 else 0) + CountOf(row[1..], s)
  }

  lemma {:induction false} CountOfAppend(a: seq<Star>, b: seq<Star>, s: Star)
    ensures CountOf(a + b, s) == CountOf(a, s) + CountOf(b, s)
  {
    if a != [] {
      assert (a + b)[1..] == a[1..] + b;
      CountOfAppend(a[1..], b, s);
    } else {
      assert a + b == b;
    }
  }

  lemma {:induction false} CountOfRepeat(n: int, s: Star, t: Star)
    ensures CountOf(Repeat(n, s), t) == if s == t && n > 0 then n else 0
  {
    if n > 0 {
      CountOfAppend(Repeat(n - 1, s), [s], t);
      CountOfRepeat(n - 1, s, t);
    }
  }

  /**
   * For a rating between 0 and 5 the row holds exactly five stars: floor(r) full ones,
   * one half star exactly when r is not whole, and 5 - ceil(r) empty ones.
   */
  lemma StarsOfRatingInRange(r: real)
    requires 0.0 <= r <= 5.0
    ensures |StarRow(Some(r))| == 5
    ensures CountOf(StarRow(Some(r)), Full) == r.Floor
    ensures CountOf(StarRow(Some(r)), Half) == if r == r.Floor as real then 0 else 1
    ensures CountOf(StarRow(Some(r)), Empty) == 5 - Ceil(r)
  {
    var full := Repeat(r.Floor, Full);
    var half: seq<Star> := if r != r.Floor as real then [Half] else [];
    var empty := Repeat(5 - Ceil(r), Empty);
    assert StarRow(Some(r)) == full + half + empty;
    if r == r.Floor as real {
      assert Ceil(r) == r.Floor;
    } else {
      assert Ceil(r) == r.Floor + 1;
    }
    forall s: Star ensures CountOf(full + half + empty, s) == CountOf(full, s) + CountOf(half, s) + CountOf(empty, s) {
      CountOfAppend(full + half, empty, s);
      CountOfAppend(full, half, s);
    }
    forall s: Star ensures CountOf(half, s) == if s == Half && half != [] then 1 else 0 {
      if half != [] {
        assert half[1..] == [];
      }
    }
    CountOfRepeat(r.Floor, Full, Full);
    CountOfRepeat(r.Floor, Full, Half);
    CountOfRepeat(r.Floor, Full, Empty);
    CountOfRepeat(5 - Ceil(r), Empty, Full);
    CountOfRepeat(5 - Ceil(r), Empty, Half);
    CountOfRepeat(5 - Ceil(r), Empty, Empty);
  }

  /** Above 5 the empty-star loop never runs, so the row has no empty star. */
  lemma NoEmptyStarsAboveFive(r: real)
    requires r > 5.0
    ensures forall i :: 0 <= i < |StarRow(Some(r))| ==> StarRow(Some(r))[i] != Empty
  {
    assert Repeat(5 - Ceil(r), Empty) == [];
    assert StarRow(Some(r)) == Repeat(r.Floor, Full) + (if r != r.Floor as real then [Half] else []);
  }

  /** A missing rating shows five empty stars. */
  lemma MissingRatingAllEmpty()
    ensures StarRow(None) == [Empty, Empty, Empty, Empty, Empty]
  {
    assert (0.0).Floor == 0;
    assert Ceil(0.0) == 0;
    assert Repeat(5, Empty) == [Empty, Empty, Empty, Empty, Empty];
    assert Repeat(0, Full) == [];
  }
}
