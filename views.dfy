/**
  The two projections of the product list kept on the page: the card grid
  and the table body, each a sequence of units in document order, with the
  empty-state placeholder of each, the loading spinner, the visibility of the
  card grid and the load-failure panel the card grid may hold.
*/
module Views {
  import opened Common
  import opened Catalog
  import opened Display
  import opened Failures

  /** The keys of a projection, in document order. */
  function Ids(units: seq<Unit>): (ids: seq<Option<nat>>)
    ensures |ids| == |units| && forall k :: 0 <= k < |units| ==> ids[k] == units[k].id
  {
    seq(|units|, k requires 0 <= k < |units| => units[k].id)
  }

  /**
    The position `querySelector('[onclick*="editProduct(id)"]')` finds: the
    first unit in document order keyed by id, or -1 when there is none.
  */
  function IndexOf(units: seq<Unit>, id: nat): (i: int)
    ensures -1 <= i < |units|
    ensures i >= 0 ==> units[i].id == Some(id)
    ensures forall k :: 0 <= k < |units| && (i < 0 || k < i) ==> units[k].id != Some(id)
  {
    if units == [] then -1
    else if units[0].id == Some(id) then 0
    else
      var k := IndexOf(units[1..], id);
      if k < 0 then -1 else k + 1
  }

  /** The lookup depends on the keys alone, so two projections with the same keys agree on it. */
  lemma {:induction false} IndexOfByIds(s: seq<Unit>, t: seq<Unit>, id: nat)
    requires Ids(s) == Ids(t)
    ensures IndexOf(s, id) == IndexOf(t, id)
    decreases |s|
  {
    assert |s| == |Ids(s)| == |t|;
    if s != [] {
      assert s[0].id == Ids(s)[0] == t[0].id;
      assert Ids(s[1..]) == Ids(s)[1..] == Ids(t)[1..] == Ids(t[1..]);
      IndexOfByIds(s[1..], t[1..], id);
    }
  }

  /** `existing.outerHTML = newHTML`: the first unit keyed by id replaced in place, if there is one. */
  function ReplaceFirst(units: seq<Unit>, id: nat, u: Unit): (r: seq<Unit>)
    ensures |r| == |units|
    ensures IndexOf(units, id) >= 0 ==> r[IndexOf(units, id)] == u
    ensures forall k :: 0 <= k < |units| && k != IndexOf(units, id) ==> r[k] == units[k]
  {
    var i := IndexOf(units, id);
    if i < 0 then units else units[i := u]
  }

  /** Replacing a unit by one with the same key leaves the keys as they were. */
  lemma ReplaceFirstKeepsIds(units: seq<Unit>, id: nat, u: Unit)
    requires u.id == Some(id)
    ensures Ids(ReplaceFirst(units, id, u)) == Ids(units)
  {
    var r := ReplaceFirst(units, id, u);
    assert forall k :: 0 <= k < |units| ==> Ids(r)[k] == Ids(units)[k];
  }

  /** `element.remove()` on the first unit keyed by id, if there is one. */
  function RemoveFirst(units: seq<Unit>, id: nat): (r: seq<Unit>)
    ensures IndexOf(units, id) < 0 ==> r == units
    ensures IndexOf(units, id) >= 0 ==>
      |r| == |units| - 1 && r == units[..IndexOf(units, id)] + units[IndexOf(units, id) + 1..]
  {
    var i := IndexOf(units, id);
    if i < 0 then units else units[..i] + units[i + 1..]
  }

  /** Cutting out position i takes that one element out of the multiset and no other. */
  lemma CutTakesOne(s: seq<Unit>, i: nat)
    requires i < |s|
    ensures multiset(s[..i] + s[i + 1..]) == multiset(s) - multiset{s[i]}
  {
    var head, mid, tail := s[..i], [s[i]], s[i + 1..];
    assert s == head + mid + tail;
    assert multiset(s) == multiset(head) + multiset(mid) + multiset(tail);
  }

  /** Removal takes out exactly the one unit found, and no other. */
  lemma RemoveFirstTakesOne(units: seq<Unit>, id: nat)
    requires IndexOf(units, id) >= 0
    ensures multiset(RemoveFirst(units, id)) == multiset(units) - multiset{units[IndexOf(units, id)]}
  {
    CutTakesOne(units, IndexOf(units, id));
  }

  /** The keys after cutting out position i are the keys with position i cut out. */
  lemma IdsOfCut(s: seq<Unit>, i: nat)
    requires i < |s|
    ensures Ids(s[..i] + s[i + 1..]) == Ids(s)[..i] + Ids(s)[i + 1..]
  {
    var r := s[..i] + s[i + 1..];
    assert forall k :: 0 <= k < |r| ==> r[k] == s[if k < i then k else k + 1];
  }

  /** Two projections with the same keys still have the same keys after the same removal. */
  lemma RemoveFirstKeepsStep(s: seq<Unit>, t: seq<Unit>, id: nat)
    requires Ids(s) == Ids(t)
    ensures Ids(RemoveFirst(s, id)) == Ids(RemoveFirst(t, id))
  {
    IndexOfByIds(s, t, id);
    var i := IndexOf(s, id);
    if i >= 0 {
      assert |s| == |Ids(s)| == |t|;
      IdsOfCut(s, i);
      IdsOfCut(t, i);
    }
  }

  /** The keys after a unit is put at the front. */
  lemma IdsOfPrepended(u: Unit, units: seq<Unit>)
    ensures Ids([u] + units) == [u.id] + Ids(units)
  {
  }

  /** A unit put at the front and then removed by its key leaves the projection as it was. */
  lemma RemoveUndoesInsert(units: seq<Unit>, u: Unit, id: nat)
    requires u.id == Some(id)
    ensures RemoveFirst([u] + units, id) == units
  {
    assert IndexOf([u] + units, id) == 0;
    assert ([u] + units)[1..] == units;
  }

  /** The document-order search for the unit keyed by id. */
  method FindUnit(units: seq<Unit>, id: nat) returns (i: int)
    ensures i == IndexOf(units, id)
    ensures i >= 0 ==> units[i].id == Some(id)
    ensures i < 0 ==> forall k :: 0 <= k < |units| ==> units[k].id != Some(id)
  {
    var n := 0;
    while n < |units|
      invariant 0 <= n <= |units|
      invariant forall k :: 0 <= k < n ==> units[k].id != Some(id)
      invariant IndexOf(units, id) < 0 || n <= IndexOf(units, id)
    {
      if units[n].id == Some(id) {
        return n;
      }
      n := n + 1;
    }
    return -1;
  }

  /** The cards the full render draws for a list, one per record, in order. */
  function CardsOf(products: seq<RawProduct>): (cards: seq<Unit>)
    ensures |cards| == |products|
    ensures forall k :: 0 <= k < |products| ==> cards[k] == Card(Normalize(products[k], CardPlaceholder))
  {
    seq(|products|, k requires 0 <= k < |products| => Card(Normalize(products[k], CardPlaceholder)))
  }

  /** The rows the full render draws for a list, one per record, in order. */
  function RowsOf(products: seq<RawProduct>): (rows: seq<Unit>)
    ensures |rows| == |products|
    ensures forall k :: 0 <= k < |products| ==> rows[k] == Row(Normalize(products[k], RowPlaceholder))
  {
    seq(|products|, k requires 0 <= k < |products| => Row(Normalize(products[k], RowPlaceholder)))
  }

  /** A full render draws cards and rows with the same keys, in the same order. */
  lemma FullRenderInStep(products: seq<RawProduct>)
    ensures Ids(CardsOf(products)) == Ids(RowsOf(products))
  {
    var cards, rows := CardsOf(products), RowsOf(products);
    forall k | 0 <= k < |products|
      ensures Ids(cards)[k] == Ids(rows)[k]
    {
      assert cards[k].id == Normalize(products[k], CardPlaceholder).id;
    }
  }

  /**
    Everything the projection functions touch: the two projections, the
    two empty-state placeholders, the loading spinner, whether the card
    grid is the view shown, and the failure panel the card grid may hold.
  */
  datatype Page = Page(
    cards: seq<Unit>,
    rows: seq<Unit>,
    cardsEmptyShown: bool,
    tableEmptyShown: bool,
    spinnerShown: bool,
    cardViewShown: bool,
    loadFailure: Option<LoadFailure>)

  /**
    The two projections are in step: the same keys in the same order; and an
    empty-state placeholder is shown only over an empty projection.
  */
  ghost predicate InStep(p: Page) {
    Ids(p.cards) == Ids(p.rows)
    && (p.cardsEmptyShown ==> p.cards == [])
    && (p.tableEmptyShown ==> p.rows == [])
  }

  /** `showLoading`: both projections cleared, both empty states hidden, the spinner shown. */
  function AfterLoading(p: Page): (q: Page)
    ensures InStep(q) && q.spinnerShown && q.cards == [] && q.rows == []
    ensures !q.cardsEmptyShown && !q.tableEmptyShown && q.loadFailure == None
    ensures q.cardViewShown == p.cardViewShown
  {
    Page([], [], false, false, true, p.cardViewShown, None)
  }

  /** `renderEmptyState`: both projections cleared and both empty states shown. */
  function AfterEmptyState(p: Page): (q: Page)
    ensures InStep(q) && q.cardsEmptyShown && q.tableEmptyShown
  {
    p.(cards := [], rows := [], cardsEmptyShown := true, tableEmptyShown := true, loadFailure := None)
  }

  /** `renderProducts`: the spinner hidden, then the empty state or one card and one row per record. */
  function AfterRender(p: Page, products: seq<RawProduct>): (q: Page)
    ensures |q.cards| == |q.rows| == |products|
    ensures !q.spinnerShown && q.loadFailure == None && q.cardViewShown == p.cardViewShown
  {
    if products == [] then AfterEmptyState(p.(spinnerShown := false))
    else Page(CardsOf(products), RowsOf(products), false, false, false, p.cardViewShown, None)
  }

  /** The catch block of the list fetch: spinner hidden, failure panel in the card grid. */
  function AfterLoadFailure(p: Page, f: LoadFailure): (q: Page)
    ensures q.loadFailure == Some(f) && !q.spinnerShown
    ensures q.cards == [] && q.rows == p.rows
    ensures q.cardsEmptyShown == p.cardsEmptyShown && q.tableEmptyShown == p.tableEmptyShown
  {
    p.(cards := [], spinnerShown := false, loadFailure := Some(f))
  }

  /** `addProductToUI`: the saved product drawn first in both projections, empty states hidden. */
  function AfterAdd(p: Page, saved: ApiProduct): (q: Page)
    ensures |q.cards| == |p.cards| + 1 && |q.rows| == |p.rows| + 1
    ensures q.cards[0].id == q.rows[0].id == Some(saved.id)
    ensures q.cards[0].title == q.rows[0].title == saved.title
  {
    var shown := FromSaved(saved);
    p.(cards := [Card(shown)] + p.cards, rows := [Row(shown)] + p.rows,
       cardsEmptyShown := false, tableEmptyShown := false)
  }

  /** `updateProductInUI`: redrawn in place in the table, and in the card grid only while it is shown. */
  function AfterUpdate(p: Page, saved: ApiProduct): (q: Page)
    ensures |q.cards| == |p.cards| && |q.rows| == |p.rows|
    ensures q.cardsEmptyShown == p.cardsEmptyShown && q.tableEmptyShown == p.tableEmptyShown
    ensures q.spinnerShown == p.spinnerShown && q.loadFailure == p.loadFailure
  {
    var shown := FromSaved(saved);
    p.(cards := if p.cardViewShown then ReplaceFirst(p.cards, saved.id, Card(shown)) else p.cards,
       rows := ReplaceFirst(p.rows, saved.id, Row(shown)))
  }

  /** `checkIfEmpty`: each empty state shown when its projection has no unit (it never hides one). */
  function AfterEmptyCheck(p: Page): (q: Page)
    ensures q.cards == p.cards && q.rows == p.rows
    ensures q.cardsEmptyShown <==> (p.cardsEmptyShown || p.cards == [])
    ensures q.tableEmptyShown <==> (p.tableEmptyShown || p.rows == [])
  {
    p.(cardsEmptyShown := p.cardsEmptyShown || p.cards == [],
       tableEmptyShown := p.tableEmptyShown || p.rows == [])
  }

  /** The first half of `removeProductFromUI`: the card removed, if found, and then the check. */
  function AfterCardRemoval(p: Page, id: nat): (q: Page)
    ensures q.cards == RemoveFirst(p.cards, id) && q.rows == p.rows
    ensures IndexOf(p.cards, id) < 0 ==> q == p
  {
    if IndexOf(p.cards, id) >= 0 then AfterEmptyCheck(p.(cards := RemoveFirst(p.cards, id))) else p
  }

  /** The second half: the row removed, if found, and then the check. */
  function AfterRowRemoval(p: Page, id: nat): (q: Page)
    ensures q.rows == RemoveFirst(p.rows, id) && q.cards == p.cards
    ensures IndexOf(p.rows, id) < 0 ==> q == p
  {
    if IndexOf(p.rows, id) >= 0 then AfterEmptyCheck(p.(rows := RemoveFirst(p.rows, id))) else p
  }

  /** `removeProductFromUI`: the card removed and the check run, then the same for the row. */
  function AfterRemove(p: Page, id: nat): (q: Page)
    ensures q.cards == RemoveFirst(p.cards, id) && q.rows == RemoveFirst(p.rows, id)
    ensures q.spinnerShown == p.spinnerShown && q.loadFailure == p.loadFailure
  {
    AfterRowRemoval(AfterCardRemoval(p, id), id)
  }

  /**
    The full render leaves the projections in step; each has exactly one
    unit per record; both empty states are shown exactly when the list is
    empty, and the spinner and any failure panel are gone.
  */
  lemma RenderInStep(p: Page, products: seq<RawProduct>)
    ensures var q := AfterRender(p, products);
      && InStep(q)
      && |q.cards| == |q.rows| == |products|
      && (q.cardsEmptyShown <==> products == [])
      && (q.tableEmptyShown <==> products == [])
      && !q.spinnerShown && q.loadFailure == None && q.cardViewShown == p.cardViewShown
  {
    FullRenderInStep(products);
  }

  /**
    Adding keeps the projections in step; the new unit comes first in each,
    keyed by the saved id, and the units already there keep their order.
  */
  lemma AddInStep(p: Page, saved: ApiProduct)
    requires InStep(p)
    ensures var q := AfterAdd(p, saved);
      && InStep(q)
      && q.cards[0].id == q.rows[0].id == Some(saved.id)
      && q.cards[1..] == p.cards && q.rows[1..] == p.rows
      && !q.cardsEmptyShown && !q.tableEmptyShown
  {
    var shown := FromSaved(saved);
    IdsOfPrepended(Card(shown), p.cards);
    IdsOfPrepended(Row(shown), p.rows);
  }

  /**
    Updating keeps the projections in step: keys, order and sizes stay as
    they were, and only the unit keyed by the saved id can change.
  */
  lemma UpdateInStep(p: Page, saved: ApiProduct)
    requires InStep(p)
    ensures var q := AfterUpdate(p, saved);
      && InStep(q)
      && Ids(q.cards) == Ids(p.cards) && Ids(q.rows) == Ids(p.rows)
      && (forall k :: 0 <= k < |p.rows| && p.rows[k].id != Some(saved.id) ==> q.rows[k] == p.rows[k])
      && (forall k :: 0 <= k < |p.cards| && p.cards[k].id != Some(saved.id) ==> q.cards[k] == p.cards[k])
  {
    var shown := FromSaved(saved);
    ReplaceFirstKeepsIds(p.cards, saved.id, Card(shown));
    ReplaceFirstKeepsIds(p.rows, saved.id, Row(shown));
  }

  /** With the card grid hidden, an update leaves the card of the saved product as it was drawn before. */
  lemma UpdateLeavesHiddenCardsStale(p: Page, saved: ApiProduct)
    requires !p.cardViewShown
    ensures AfterUpdate(p, saved).cards == p.cards
    ensures AfterUpdate(p, saved).rows == ReplaceFirst(p.rows, saved.id, Row(FromSaved(saved)))
  {
  }

  /**
    After the empty check, over projections in step, each empty state is
    shown exactly when its projection has no unit left.
  */
  lemma EmptyCheckShowsExactly(p: Page)
    requires InStep(p)
    ensures var q := AfterEmptyCheck(p);
      && InStep(q)
      && (q.cardsEmptyShown <==> q.cards == [])
      && (q.tableEmptyShown <==> q.rows == [])
      && q.cards == p.cards && q.rows == p.rows
  {
  }

  /**
    Removing keeps the projections in step; the unit keyed by id leaves both
    or neither, and each empty state is shown afterwards exactly when it was
    already, or when a unit was removed and none is left.
  */
  lemma RemoveInStep(p: Page, id: nat)
    requires InStep(p)
    ensures var q := AfterRemove(p, id);
      var found := IndexOf(p.cards, id) >= 0;
      && InStep(q)
      && q.cards == RemoveFirst(p.cards, id) && q.rows == RemoveFirst(p.rows, id)
      && (found <==> |q.cards| == |p.cards| - 1)
      && (q.cardsEmptyShown <==> (p.cardsEmptyShown || (found && q.cards == [])))
      && (q.tableEmptyShown <==> (p.tableEmptyShown || (found && q.rows == [])))
      && q.spinnerShown == p.spinnerShown && q.cardViewShown == p.cardViewShown
      && q.loadFailure == p.loadFailure
  {
    IndexOfByIds(p.cards, p.rows, id);
    RemoveFirstKeepsStep(p.cards, p.rows, id);
    assert |p.cards| == |Ids(p.cards)| == |p.rows|;
    var c := AfterCardRemoval(p, id);
    assert c.rows == p.rows;
    if IndexOf(p.cards, id) >= 0 {
      assert c.cardsEmptyShown == (p.cardsEmptyShown || c.cards == []);
      assert c.tableEmptyShown == (p.tableEmptyShown || p.rows == []);
    } else {
      assert c == p;
    }
  }

  /** Removing by its key the product just added gives back the projections as they were. */
  lemma RemoveUndoesAdd(p: Page, saved: ApiProduct)
    ensures AfterRemove(AfterAdd(p, saved), saved.id).cards == p.cards
    ensures AfterRemove(AfterAdd(p, saved), saved.id).rows == p.rows
  {
    var shown := FromSaved(saved);
    RemoveUndoesInsert(p.cards, Card(shown), saved.id);
    RemoveUndoesInsert(p.rows, Row(shown), saved.id);
  }

  /**
    The page itself: the card grid and the table body, updated in place by
    the functions of the page script. State() reads it as a Page.
  */
  class ProductViews {
    var cards: seq<Unit>
    var rows: seq<Unit>
    var cardsEmptyShown: bool
    var tableEmptyShown: bool
    var spinnerShown: bool
    var cardViewShown: bool
    var loadFailure: Option<LoadFailure>

    function State(): Page
      reads this
    {
      Page(cards, rows, cardsEmptyShown, tableEmptyShown, spinnerShown, cardViewShown, loadFailure)
    }

    ghost predicate Valid()
      reads this
    {
      InStep(State())
    }

    /** The page before any list has been loaded, with the card grid selected. */
    constructor ()
      ensures Valid() && State() == Page([], [], false, false, false, true, None)
    {
      cards, rows := [], [];
      cardsEmptyShown, tableEmptyShown := false, false;
      spinnerShown, cardViewShown := false, true;
      loadFailure := None;
    }

    /** The card view toggle: the card grid shown. */
    method ShowCardView()
      requires Valid()
      modifies this`cardViewShown
      ensures Valid() && State() == old(State()).(cardViewShown := true)
    {
      cardViewShown := true;
    }

    /** The table view toggle: the card grid hidden. */
    method ShowTableView()
      requires Valid()
      modifies this`cardViewShown
      ensures Valid() && State() == old(State()).(cardViewShown := false)
    {
      cardViewShown := false;
    }

    method ShowLoading()
      modifies this
      ensures Valid() && State() == AfterLoading(old(State()))
    {
      cards, rows := [], [];
      cardsEmptyShown, tableEmptyShown := false, false;
      spinnerShown := true;
      loadFailure := None;
    }

    method RenderEmptyState()
      modifies this
      ensures Valid() && State() == AfterEmptyState(old(State()))
    {
      cards, rows := [], [];
      cardsEmptyShown, tableEmptyShown := true, true;
      loadFailure := None;
    }

    method RenderProducts(products: seq<RawProduct>)
      modifies this
      ensures Valid() && State() == AfterRender(old(State()), products)
    {
      spinnerShown := false;
      if products == [] {
        RenderEmptyState();
        return;
      }
      cardsEmptyShown, tableEmptyShown := false, false;
      cards := CardsOf(products);
      rows := RowsOf(products);
      loadFailure := None;
      FullRenderInStep(products);
    }

    /** The card grid's content replaced by the failure panel, the spinner hidden. */
    method ShowLoadFailure(f: LoadFailure)
      modifies this`cards, this`spinnerShown, this`loadFailure
      ensures State() == AfterLoadFailure(old(State()), f)
    {
      spinnerShown := false;
      cards := [];
      loadFailure := Some(f);
    }

    method AddProduct(saved: ApiProduct)
      requires Valid()
      modifies this`cards, this`rows, this`cardsEmptyShown, this`tableEmptyShown
      ensures Valid() && State() == AfterAdd(old(State()), saved)
    {
      AddInStep(State(), saved);
      var shown := FromSaved(saved);
      cardsEmptyShown := false;
      cards := [Card(shown)] + cards;
      tableEmptyShown := false;
      rows := [Row(shown)] + rows;
    }

    method UpdateProduct(saved: ApiProduct)
      requires Valid()
      modifies this`cards, this`rows
      ensures Valid() && State() == AfterUpdate(old(State()), saved)
    {
      UpdateInStep(State(), saved);
      var shown := FromSaved(saved);
      if cardViewShown {
        RedrawCard(saved.id, Card(shown));
      }
      RedrawRow(saved.id, Row(shown));
    }

    /** The card half of `updateProductInUI`: the card keyed by id, if found, replaced. */
    method RedrawCard(id: nat, u: Unit)
      modifies this`cards
      ensures cards == ReplaceFirst(old(cards), id, u)
    {
      var i := FindUnit(cards, id);
      if i >= 0 {
        cards := cards[i := u];
      }
    }

    /** The row half of `updateProductInUI`: the row keyed by id, if found, replaced. */
    method RedrawRow(id: nat, u: Unit)
      modifies this`rows
      ensures rows == ReplaceFirst(old(rows), id, u)
    {
      var j := FindUnit(rows, id);
      if j >= 0 {
        rows := rows[j := u];
      }
    }

    method CheckIfEmpty()
      modifies this`cardsEmptyShown, this`tableEmptyShown
      ensures State() == AfterEmptyCheck(old(State()))
    {
      if |cards| == 0 {
        cardsEmptyShown := true;
      }
      if |rows| == 0 {
        tableEmptyShown := true;
      }
    }

    /** The card half of `removeProductFromUI`. */
    method RemoveCard(id: nat)
      modifies this`cards, this`cardsEmptyShown, this`tableEmptyShown
      ensures State() == AfterCardRemoval(old(State()), id)
    {
      var i := FindUnit(cards, id);
      if i >= 0 {
        cards := cards[..i] + cards[i + 1..];
        CheckIfEmpty();
      }
    }

    /** The row half of `removeProductFromUI`. */
    method RemoveRow(id: nat)
      modifies this`rows, this`cardsEmptyShown, this`tableEmptyShown
      ensures State() == AfterRowRemoval(old(State()), id)
    {
      var j := FindUnit(rows, id);
      if j >= 0 {
        rows := rows[..j] + rows[j + 1..];
        CheckIfEmpty();
      }
    }

    method RemoveProduct(id: nat)
      requires Valid()
      modifies this`cards, this`rows, this`cardsEmptyShown, this`tableEmptyShown
      ensures Valid() && State() == AfterRemove(old(State()), id)
    {
      RemoveInStep(State(), id);
      RemoveCard(id);
      RemoveRow(id);
    }
  }
}
