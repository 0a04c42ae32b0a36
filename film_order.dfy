/** The two film orderings: the listing route's fixed policy (larger `displayOrder` first, a
    missing value counted as -1, ties broken by the newer `createdAt`) and the admin page's
    comparator, which dispatches on the chosen sort key and honours the asc/desc toggle for
    every key except `displayOrder`. One insertion sort serves both, in place on an array. */
module FilmOrder {
  import opened Values
  import opened Films
  import Text

  datatype SortKey = DisplayOrderKey | TitleKey | YearKey | CreatedAtKey | CategoryKey
  datatype Direction = Asc | Desc

  /** Which comparator a sort uses: the listing route's, or the admin page's for a key and a
      direction. */
  datatype Ordering = Listing | Admin(key: SortKey, dir: Direction)

  /** `film.displayOrder ?? -1`. */
  function EffectiveOrder(f: Film): int {
    match f.displayOrder
    case None => -1
    case Some(n) => n
  }

  /** The `displayOrder` comparator both files share: negative means `a` goes first. */
  function DisplayOrderCompare(a: Film, b: Film): (r: int)
    ensures r < 0 <==>
      EffectiveOrder(a) > EffectiveOrder(b) || (EffectiveOrder(a) == EffectiveOrder(b) && a.createdAt > b.createdAt)
    ensures r == 0 <==> EffectiveOrder(a) == EffectiveOrder(b) && a.createdAt == b.createdAt
  {
    var ao, bo := EffectiveOrder(a), EffectiveOrder(b);
    if ao != bo then bo - ao else b.createdAt - a.createdAt
  }

  /** The projection `<` compares for the other admin keys: lower-cased title or category,
      year, creation instant. */
  predicate KeyLess(key: SortKey, a: Film, b: Film)
    requires key != DisplayOrderKey
  {
    match key
    case TitleKey => Text.Less(Text.Lower(a.title), Text.Lower(b.title))
    case YearKey => a.year < b.year
    case CreatedAtKey => a.createdAt < b.createdAt
    case CategoryKey => Text.Less(Text.Lower(a.category), Text.Lower(b.category))
  }

  /** The comparator handed to `sort`. */
  function Compare(ord: Ordering, a: Film, b: Film): int {
    match ord
    case Listing => DisplayOrderCompare(a, b)
    case Admin(key, dir) =>
      if key == DisplayOrderKey then DisplayOrderCompare(a, b)
      else if KeyLess(key, a, b) then (if dir == Asc then -1 else 1)
      else if KeyLess(key, b, a) then (if dir == Asc then 1 else -1)
      else 0
  }

  /** `a` may stand before `b` in a sorted result. */
  predicate Precedes(ord: Ordering, a: Film, b: Film) {
    Compare(ord, a, b) <= 0
  }

  /** Every earlier element may stand before every later one. */
  predicate Sorted(ord: Ordering, s: seq<Film>) {
    forall i, j :: 0 <= i < j < |s| ==> Precedes(ord, s[i], s[j])
  }

  lemma {:induction false} KeyLessAsymmetric(key: SortKey, a: Film, b: Film)
    requires key != DisplayOrderKey && KeyLess(key, a, b)
    ensures !KeyLess(key, b, a)
  {
    match key
    case TitleKey => Text.LessAsymmetric(Text.Lower(a.title), Text.Lower(b.title));
    case CategoryKey => Text.LessAsymmetric(Text.Lower(a.category), Text.Lower(b.category));
    case _ =>
  }

  /** For the projected keys, "not after" is transitive. */
  lemma {:induction false} KeyNotLessTransitive(key: SortKey, a: Film, b: Film, c: Film)
    requires key != DisplayOrderKey
    requires !KeyLess(key, b, a) && !KeyLess(key, c, b)
    ensures !KeyLess(key, c, a)
  {
    match key
    case TitleKey => TextNotLessTransitive(Text.Lower(a.title), Text.Lower(b.title), Text.Lower(c.title));
    case CategoryKey => TextNotLessTransitive(Text.Lower(a.category), Text.Lower(b.category), Text.Lower(c.category));
    case _ =>
  }

  lemma {:induction false} TextNotLessTransitive(x: string, y: string, z: string)
    requires !Text.Less(y, x) && !Text.Less(z, y)
    ensures !Text.Less(z, x)
  {
    if Text.Less(z, x) {
      if x != y { Text.LessTotal(x, y); }
      if y != z { Text.LessTotal(y, z); }
      if x == y { Text.LessAsymmetric(z, x); }
      else if y == z { Text.LessAsymmetric(z, x); }
      else { Text.LessTransitive(x, y, z); Text.LessAsymmetric(x, z); }
    }
  }

  /** Any two films can be placed one way or the other. */
  lemma {:induction false} PrecedesTotal(ord: Ordering, a: Film, b: Film)
    ensures Precedes(ord, a, b) || Precedes(ord, b, a)
  {
    if ord.Admin? && ord.key != DisplayOrderKey && KeyLess(ord.key, a, b) {
      KeyLessAsymmetric(ord.key, a, b);
    }
  }

  /** Both comparators are consistent: "may stand before" is transitive. */
  lemma {:induction false} PrecedesTransitive(ord: Ordering, a: Film, b: Film, c: Film)
    requires Precedes(ord, a, b) && Precedes(ord, b, c)
    ensures Precedes(ord, a, c)
  {
    if ord.Admin? && ord.key != DisplayOrderKey {
      var key := ord.key;
      if KeyLess(key, a, b) { KeyLessAsymmetric(key, a, b); }
      if KeyLess(key, b, c) { KeyLessAsymmetric(key, b, c); }
      if KeyLess(key, a, c) { KeyLessAsymmetric(key, a, c); }
      if ord.dir == Asc {
        KeyNotLessTransitive(key, a, b, c);
      } else {
        KeyNotLessTransitive(key, c, b, a);
      }
    }
  }

  /** The state of an insertion pass that is moving the element at `j` left: apart from
      position `j` the prefix `s[..i + 1]` is sorted, and the element at `j` may stand before
      everything to its right up to `i`. */
  predicate InsertInv(ord: Ordering, s: seq<Film>, j: nat, i: nat)
    requires j <= i < |s|
  {
    && (forall p, q :: 0 <= p < q <= i && p != j && q != j ==> Precedes(ord, s[p], s[q]))
    && (forall q :: j < q <= i ==> Precedes(ord, s[j], s[q]))
  }

  /** Swapping the moving element with a left neighbour that may not stand before it keeps
      the pass's invariant, one position further left. */
  lemma {:induction false} SwapKeepsInsertInv(ord: Ordering, s: seq<Film>, j: nat, i: nat)
    requires 0 < j <= i < |s| && InsertInv(ord, s, j, i)
    requires !Precedes(ord, s[j - 1], s[j])
    ensures InsertInv(ord, s[j - 1 := s[j]][j := s[j - 1]], j - 1, i)
  {
    PrecedesTotal(ord, s[j - 1], s[j]);
  }

  /** When the moving element may follow its left neighbour (or has reached the front), the
      whole prefix `s[..i + 1]` is sorted. */
  lemma {:induction false} InsertInvDone(ord: Ordering, s: seq<Film>, j: nat, i: nat)
    requires j <= i < |s| && InsertInv(ord, s, j, i)
    requires j == 0 || Precedes(ord, s[j - 1], s[j])
    ensures Sorted(ord, s[..i + 1])
  {
    forall p | 0 <= p < j
      ensures Precedes(ord, s[p], s[j])
    {
      if p < j - 1 { PrecedesTransitive(ord, s[p], s[j - 1], s[j]); }
    }
  }

  /** Moves `a[i]` left into the sorted prefix `a[..i]`, so that `a[..i + 1]` is sorted. */
  method Insert(a: array<Film>, ord: Ordering, i: nat)
    requires i < a.Length && Sorted(ord, a[..i])
    modifies a
    ensures Sorted(ord, a[..i + 1])
    ensures a[i + 1..] == old(a[i + 1..])
    ensures multiset(a[..]) == old(multiset(a[..]))
  {
    var j := i;
    while j > 0 && !Precedes(ord, a[j - 1], a[j])
      invariant 0 <= j <= i
      invariant a[i + 1..] == old(a[i + 1..])
      invariant multiset(a[..]) == old(multiset(a[..]))
      invariant InsertInv(ord, a[..], j, i)
    {
      SwapKeepsInsertInv(ord, a[..], j, i);
      a[j - 1], a[j] := a[j], a[j - 1];
      j := j - 1;
    }
    InsertInvDone(ord, a[..], j, i);
  }

  /** `array.sort(comparator)` in place: afterwards the array is sorted under the ordering
      and holds the same films as before. */
  method SortInPlace(a: array<Film>, ord: Ordering)
    modifies a
    ensures Sorted(ord, a[..])
    ensures multiset(a[..]) == old(multiset(a[..]))
  {
    var i := 0;
    while i < a.Length
      invariant 0 <= i <= a.Length
      invariant Sorted(ord, a[..i])
      invariant multiset(a[..]) == old(multiset(a[..]))
    {
      Insert(a, ord, i);
      i := i + 1;
    }
    assert a[..a.Length] == a[..];
  }

  /** The admin page's `getSortedFilms`: an empty list gives `[]`; otherwise a copy of the
      films is sorted with the admin comparator, so the result is a sorted permutation and
      the page's own list keeps its order. */
  method GetSortedFilms(films: seq<Film>, sortBy: SortKey, sortOrder: Direction) returns (r: seq<Film>)
    ensures films == [] ==> r == []
    ensures Sorted(Admin(sortBy, sortOrder), r)
    ensures multiset(r) == multiset(films)
  {
    if films == [] {
      return [];
    }
    var copy := new Film[|films|](i requires 0 <= i < |films| => films[i]);
    assert copy[..] == films;
    SortInPlace(copy, Admin(sortBy, sortOrder));
    r := copy[..];
  }

  // -----------------------------------------------------------------------------------------
  // What the orderings mean

  /** In a listing-sorted sequence, effective display orders never increase, and among equal
      effective orders creation instants never increase (newest first). */
  lemma {:induction false} ListingSortedMeaning(s: seq<Film>, i: nat, j: nat)
    requires Sorted(Listing, s) && i < j < |s|
    ensures EffectiveOrder(s[i]) >= EffectiveOrder(s[j])
    ensures EffectiveOrder(s[i]) == EffectiveOrder(s[j]) ==> s[i].createdAt >= s[j].createdAt
  {
    assert Precedes(Listing, s[i], s[j]);
  }

  /** A strictly larger effective display order always goes first, whatever the creation
      instants. */
  lemma {:induction false} LargerOrderFirst(s: seq<Film>, i: nat, j: nat)
    requires Sorted(Listing, s) && i < |s| && j < |s|
    requires EffectiveOrder(s[i]) > EffectiveOrder(s[j])
    ensures i < j
  {
    if j < i { ListingSortedMeaning(s, j, i); }
  }

  /** A film without `displayOrder` compares exactly like one with an explicit -1: it goes
      after every film with 0 or more, and before every film with -2 or less. */
  lemma {:induction false} MissingOrderIsMinusOne(a: Film, b: Film, n: int)
    requires a.displayOrder == None
    ensures b.displayOrder == Some(-1) ==> Compare(Listing, a, b) == b.createdAt - a.createdAt
    ensures b.displayOrder == Some(n) && n >= 0 ==> Compare(Listing, b, a) < 0
    ensures b.displayOrder == Some(n) && n <= -2 ==> Compare(Listing, a, b) < 0
  {
  }

  /** With the `displayOrder` key the admin comparator ignores the direction toggle and is
      the listing route's comparator. */
  lemma {:induction false} AdminDisplayOrderIgnoresDirection(dir: Direction, a: Film, b: Film)
    ensures Compare(Admin(DisplayOrderKey, dir), a, b) == Compare(Listing, a, b)
  {
  }

  /** For the other keys `asc` puts the smaller projection first, `desc` the larger, and equal
      projections compare as 0. */
  lemma {:induction false} AdminKeyDirection(key: SortKey, a: Film, b: Film)
    requires key != DisplayOrderKey
    ensures KeyLess(key, a, b) ==> Compare(Admin(key, Asc), a, b) < 0 && Compare(Admin(key, Desc), a, b) > 0
    ensures !KeyLess(key, a, b) && !KeyLess(key, b, a) ==> Compare(Admin(key, Asc), a, b) == 0 && Compare(Admin(key, Desc), a, b) == 0
  {
  }

  /** In an ascending admin sort no later film has a smaller projection than an earlier one;
      in a descending sort no later film has a larger one. */
  lemma {:induction false} AdminSortedMeaning(key: SortKey, dir: Direction, s: seq<Film>, i: nat, j: nat)
    requires key != DisplayOrderKey && Sorted(Admin(key, dir), s) && i < j < |s|
    ensures dir == Asc ==> !KeyLess(key, s[j], s[i])
    ensures dir == Desc ==> !KeyLess(key, s[i], s[j])
  {
    assert Precedes(Admin(key, dir), s[i], s[j]);
    if dir == Asc && KeyLess(key, s[j], s[i]) { KeyLessAsymmetric(key, s[j], s[i]); }
  }
}
