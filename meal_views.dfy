/** The meal views of app/views.py that change tables:
    `MealSubscriptionViewSet.select_meals` and `MealBoxViewSet.active`,
    `add` and `remove`. The tables they touch are the fields of `MealStore`;
    a primary key is drawn from `nextId`. */
module MealViews {
  import opened Wrappers
  import opened Calendar
  import opened Tables
  import opened Entities
  import Models

  // ------------------------------------------------------------ select_meals

  /** One entry of the submitted `selections` list; a key the client left
      out of the entry is `None`. */
  datatype MealChoice = MealChoice(mealId: Option<nat>, quantity: Option<int>)

  predicate Complete(c: MealChoice) {
    c.mealId.Some? && c.quantity.Some?
  }

  /** The key whose lookup fails first: `meal_id` is read before `quantity`. */
  function MissingKey(c: MealChoice): string {
    if c.mealId.None? then "meal_id" else "quantity"
  }

  /** How many leading entries carry both keys: the loop creates a row for each
      of them and stops with a `KeyError` at the next one. */
  function CompleteRun(cs: seq<MealChoice>): (n: nat)
    ensures n <= |cs|
    ensures forall i :: 0 <= i < n ==> Complete(cs[i])
    ensures n < |cs| ==> !Complete(cs[n])
  {
    if cs == [] || !Complete(cs[0]) then 0
    else
      var n := 1 + CompleteRun(cs[1..]);
      assert forall i :: 1 <= i < n ==> cs[i] == cs[1..][i - 1];
      n
  }

  lemma {:induction false} CompleteRunIs(cs: seq<MealChoice>, n: nat)
    requires n <= |cs|
    requires forall i :: 0 <= i < n ==> Complete(cs[i])
    requires n < |cs| ==> !Complete(cs[n])
    ensures CompleteRun(cs) == n
  {
    if n > 0 {
      CompleteRunIs(cs[1..], n - 1);
    }
  }

  /** The rows of subscription `sub` for the week starting `w`. */
  function InWeek(sub: nat, w: int): WeeklyMealSelection -> bool {
    (s: WeeklyMealSelection) => s.subscription == sub && s.weekStart == w
  }

  /** Every other row of the selection table. */
  function OutsideWeek(sub: nat, w: int): WeeklyMealSelection -> bool {
    (s: WeeklyMealSelection) => !(s.subscription == sub && s.weekStart == w)
  }

  function Selection(sub: nat, w: int, c: MealChoice, id: nat): WeeklyMealSelection
    requires Complete(c)
  {
    WeeklyMealSelection(id, sub, w, c.mealId.value, c.quantity.value)
  }

  /** The rows the loop creates for `cs`, the `i`-th with primary key `first + i`. */
  function NewRows(sub: nat, w: int, cs: seq<MealChoice>, first: nat): (r: seq<WeeklyMealSelection>)
    requires forall i :: 0 <= i < |cs| ==> Complete(cs[i])
    ensures |r| == |cs|
  {
    if cs == [] then []
    else NewRows(sub, w, cs[..|cs| - 1], first) + [Selection(sub, w, cs[|cs| - 1], first + |cs| - 1)]
  }

  /** The sum of the submitted quantities. */
  function TotalQuantity(cs: seq<MealChoice>): int
    requires forall i :: 0 <= i < |cs| ==> Complete(cs[i])
  {
    if cs == [] then 0
    else
      assert Complete(cs[|cs| - 1]);
      TotalQuantity(cs[..|cs| - 1]) + cs[|cs| - 1].quantity.value
  }

  function QuantityOf(s: WeeklyMealSelection): int {
    s.quantity
  }

  /** The new rows are the submitted entries, in the submitted order, each
      with the subscription and week of the request. */
  lemma {:induction false} NewRowsAreChoices(sub: nat, w: int, cs: seq<MealChoice>, first: nat)
    requires forall i :: 0 <= i < |cs| ==> Complete(cs[i])
    ensures forall i :: 0 <= i < |cs| ==>
      NewRows(sub, w, cs, first)[i] == WeeklyMealSelection(first + i, sub, w, cs[i].mealId.value, cs[i].quantity.value)
  {
    if cs != [] {
      var init := cs[..|cs| - 1];
      NewRowsAreChoices(sub, w, init, first);
      assert forall i :: 0 <= i < |init| ==> init[i] == cs[i];
    }
  }

  /** `total_meals` is the sum of the quantities stored for the week. */
  lemma {:induction false} TotalIsStoredSum(sub: nat, w: int, cs: seq<MealChoice>, first: nat)
    requires forall i :: 0 <= i < |cs| ==> Complete(cs[i])
    ensures TotalQuantity(cs) == Sum(NewRows(sub, w, cs, first), QuantityOf)
  {
    if cs != [] {
      var init := cs[..|cs| - 1];
      TotalIsStoredSum(sub, w, init, first);
      SumAppend(NewRows(sub, w, init, first), [Selection(sub, w, cs[|cs| - 1], first + |cs| - 1)], QuantityOf);
    }
  }

  /** After `select_meals`, the rows of the week are exactly the new rows, and
      every row of another week or another subscription is as before. */
  lemma SelectionReplacesWeek(rows: seq<WeeklyMealSelection>, sub: nat, w: int, cs: seq<MealChoice>, first: nat)
    requires forall i :: 0 <= i < |cs| ==> Complete(cs[i])
    ensures Filter(Filter(rows, OutsideWeek(sub, w)) + NewRows(sub, w, cs, first), InWeek(sub, w)) == NewRows(sub, w, cs, first)
    ensures Filter(Filter(rows, OutsideWeek(sub, w)) + NewRows(sub, w, cs, first), OutsideWeek(sub, w)) == Filter(rows, OutsideWeek(sub, w))
  {
    var kept := Filter(rows, OutsideWeek(sub, w));
    var added := NewRows(sub, w, cs, first);
    NewRowsAreChoices(sub, w, cs, first);
    FilterAppend(kept, added, InWeek(sub, w));
    FilterAppend(kept, added, OutsideWeek(sub, w));
    FilterNone(kept, InWeek(sub, w));
    FilterAll(added, InWeek(sub, w));
    FilterAll(kept, OutsideWeek(sub, w));
    FilterNone(added, OutsideWeek(sub, w));
  }

  // ---------------------------------------------------------------- meal box

  /** The boxes `get_or_create(user=..., week_start=...)` looks up. */
  function BoxOf(user: nat, w: int): MealBox -> bool {
    (b: MealBox) => b.user == user && b.weekStart == w
  }

  /** The items of `meal` in `box`. */
  function IsItem(box: nat, meal: nat): MealBoxItem -> bool {
    (it: MealBoxItem) => it.box == box && it.meal == meal
  }

  function OtherItem(box: nat, meal: nat): MealBoxItem -> bool {
    (it: MealBoxItem) => !(it.box == box && it.meal == meal)
  }

  const DefaultBoxName := "Weekly Box"

  /** Creating the box that `active` did not find leaves exactly one box for
      the week, so the next call finds it. */
  lemma CreatedBoxIsFound(boxes: seq<MealBox>, b: MealBox)
    requires Count(boxes, BoxOf(b.user, b.weekStart)) == 0
    ensures Count(boxes + [b], BoxOf(b.user, b.weekStart)) == 1
  {
    CountAppend(boxes, [b], BoxOf(b.user, b.weekStart));
  }

  /** `add` or `remove` leaves the items of other (box, meal) pairs as they were,
      and `remove` leaves none of the pair. */
  lemma RemoveDeletesOnlyItem(items: seq<MealBoxItem>, box: nat, meal: nat)
    ensures Filter(Filter(items, OtherItem(box, meal)), IsItem(box, meal)) == []
    ensures Filter(Filter(items, OtherItem(box, meal)), OtherItem(box, meal)) == Filter(items, OtherItem(box, meal))
  {
    var kept := Filter(items, OtherItem(box, meal));
    FilterNone(kept, IsItem(box, meal));
    FilterAll(kept, OtherItem(box, meal));
  }

  class MealStore {
    var subscriptions: seq<MealSubscription>
    var selections: seq<WeeklyMealSelection>
    var meals: seq<Models.Meal>
    var boxes: seq<MealBox>
    var items: seq<MealBoxItem>
    var nextId: nat

    constructor ()
      ensures subscriptions == [] && selections == [] && meals == [] && boxes == [] && items == []
    {
      subscriptions, selections, meals, boxes, items := [], [], [], [], [];
      nextId := 1;
    }

    /** `get_object()` on `MealSubscription.objects.filter(user=user)`. */
    predicate OwnsSubscription(user: nat, pk: nat)
      reads this
    {
      exists i :: 0 <= i < |subscriptions| && subscriptions[i].id == pk && subscriptions[i].user == user
    }

    /** `get_object()` on `MealBox.objects.filter(user=user)`. */
    predicate OwnsBox(user: nat, pk: nat)
      reads this
    {
      exists i :: 0 <= i < |boxes| && boxes[i].id == pk && boxes[i].user == user
    }

    /** `get_object_or_404(Meal, id=meal_id)`; an absent `meal_id` finds nothing. */
    predicate MealExists(mealId: Option<nat>)
      reads this
    {
      mealId.Some? && exists i :: 0 <= i < |meals| && meals[i].id == mealId.value
    }

    /** `select_meals`: delete the week's rows, then create one row per
        submitted entry and add up the quantities. An entry without
        `meal_id` or `quantity` stops the loop with a `KeyError`, and the rows
        created before it stay. No limit is put on the quantities. */
    method SelectMeals(user: nat, pk: nat, weekStart: int, cs: seq<MealChoice>) returns (r: Result<int, ViewError>)
      modifies this`selections, this`nextId
      ensures !old(OwnsSubscription(user, pk)) ==>
        r == Err(NotFound) && selections == old(selections) && nextId == old(nextId)
      ensures old(OwnsSubscription(user, pk)) ==>
        var n := CompleteRun(cs);
        selections == Filter(old(selections), OutsideWeek(pk, weekStart)) + NewRows(pk, weekStart, cs[..n], old(nextId))
        && nextId == old(nextId) + n
        && (r.Ok? <==> n == |cs|)
        && (r.Ok? ==> r.value == TotalQuantity(cs))
        && (r.Err? ==> r.error == KeyError(MissingKey(cs[n])))
    {
      if !OwnsSubscription(user, pk) {
        return Err(NotFound);
      }
      var first := nextId;
      var kept := Filter(selections, OutsideWeek(pk, weekStart));
      selections := kept;
      var total := 0;
      var i := 0;
      while i < |cs|
        invariant 0 <= i <= |cs|
        invariant forall j :: 0 <= j < i ==> Complete(cs[j])
        invariant selections == kept + NewRows(pk, weekStart, cs[..i], first)
        invariant nextId == first + i
        invariant total == TotalQuantity(cs[..i])
      {
        var c := cs[i];
        if c.mealId.None? || c.quantity.None? {
          CompleteRunIs(cs, i);
          return Err(KeyError(MissingKey(c)));
        }
        selections := selections + [WeeklyMealSelection(nextId, pk, weekStart, c.mealId.value, c.quantity.value)];
        nextId := nextId + 1;
        total := total + c.quantity.value;
        i := i + 1;
        assert cs[..i][..i - 1] == cs[..i - 1];
      }
      CompleteRunIs(cs, i);
      assert cs[..i] == cs;
      return Ok(total);
    }

    /** `active`: `get_or_create` of the user's box for the week of `today`,
        which starts on that week's Monday; a created box is named
        "Weekly Box". Two boxes for the week make `get` fail. */
    method Active(user: nat, today: int) returns (r: Result<MealBox, ViewError>)
      requires ValidOrdinal(today)
      modifies this`boxes, this`nextId
      ensures r.Ok? ==> (r.value.user == user && Weekday(r.value.weekStart) == 0
                         && r.value.weekStart <= today < r.value.weekStart + 7)
      ensures Count(old(boxes), BoxOf(user, WeekStartOf(today))) == 0 ==>
                (r == Ok(MealBox(old(nextId), user, WeekStartOf(today), DefaultBoxName))
                 && boxes == old(boxes) + [r.value] && nextId == old(nextId) + 1)
      ensures Count(old(boxes), BoxOf(user, WeekStartOf(today))) == 1 ==>
                (r == Ok(old(boxes)[FirstIndex(old(boxes), BoxOf(user, WeekStartOf(today)))])
                 && boxes == old(boxes) && nextId == old(nextId))
      ensures Count(old(boxes), BoxOf(user, WeekStartOf(today))) > 1 ==>
                (r == Err(MultipleObjectsReturned) && boxes == old(boxes) && nextId == old(nextId))
      ensures r.Ok? ==> Count(boxes, BoxOf(user, WeekStartOf(today))) == 1
    {
      var w := WeekStartOf(today);
      var n := Count(boxes, BoxOf(user, w));
      if n == 0 {
        var b := MealBox(nextId, user, w, DefaultBoxName);
        CreatedBoxIsFound(boxes, b);
        boxes := boxes + [b];
        nextId := nextId + 1;
        return Ok(b);
      } else if n == 1 {
        return Ok(boxes[FirstIndex(boxes, BoxOf(user, w))]);
      } else {
        return Err(MultipleObjectsReturned);
      }
    }

    /** `add`: the box must be the user's and the meal must exist (404
        otherwise); then the item is upserted as `UpsertItem` says. */
    method Add(user: nat, boxId: nat, mealId: Option<nat>, quantity: Option<int>) returns (r: Result<nat, ViewError>)
      modifies this`items, this`nextId
      ensures !old(OwnsBox(user, boxId)) || !old(MealExists(mealId)) ==>
                (r == Err(NotFound) && items == old(items) && nextId == old(nextId))
      ensures old(OwnsBox(user, boxId)) && old(MealExists(mealId)) ==>
                UpsertItem(old(items), old(nextId), boxId, mealId.value, AddedQuantity(quantity)) == Upsert(r, items, nextId)
    {
      if !OwnsBox(user, boxId) || !MealExists(mealId) {
        return Err(NotFound);
      }
      var q := AddedQuantity(quantity);
      var n := Count(items, IsItem(boxId, mealId.value));
      if n == 0 {
        var item := MealBoxItem(nextId, boxId, mealId.value, q);
        items := items + [item];
        nextId := nextId + 1;
        return Ok(item.id);
      } else if n == 1 {
        var k := FirstIndex(items, IsItem(boxId, mealId.value));
        var item := items[k].(quantity := items[k].quantity + q);
        items := items[k := item];
        return Ok(item.id);
      } else {
        return Err(MultipleObjectsReturned);
      }
    }

    /** `remove`: delete every item of the meal in the box. */
    method Remove(user: nat, boxId: nat, mealId: Option<nat>) returns (r: Result<(), ViewError>)
      modifies this`items
      ensures !old(OwnsBox(user, boxId)) || !old(MealExists(mealId)) ==> r == Err(NotFound) && items == old(items)
      ensures old(OwnsBox(user, boxId)) && old(MealExists(mealId)) ==>
        r == Ok(()) && items == Filter(old(items), OtherItem(boxId, mealId.value))
    {
      if !OwnsBox(user, boxId) || !MealExists(mealId) {
        return Err(NotFound);
      }
      items := Filter(items, OtherItem(boxId, mealId.value));
      return Ok(());
    }
  }

  /** `quantity` from the request, 1 when absent. */
  function AddedQuantity(quantity: Option<int>): int {
    if quantity.None? then 1 else quantity.value
  }

  /** What `add` leaves: its result, the item table and the next key. */
  datatype Upsert = Upsert(result: Result<nat, ViewError>, items: seq<MealBoxItem>, nextId: nat)

  /** The quantity of the (box, meal) item before `add`: 0 when there is none. */
  function QuantityBefore(items: seq<MealBoxItem>, box: nat, meal: nat): int
    requires Count(items, IsItem(box, meal)) <= 1
  {
    if Count(items, IsItem(box, meal)) == 0 then 0
    else items[FirstIndex(items, IsItem(box, meal))].quantity
  }

  /** `get_or_create(meal_box=box, meal=meal)` and the quantity update. `get`
      fails when the pair already has two items; otherwise the result is the
      key of the item, a new key exactly when the item is created. */
  function UpsertItem(items: seq<MealBoxItem>, nextId: nat, box: nat, meal: nat, q: int): (u: Upsert)
    ensures u.result.Err? <==> Count(items, IsItem(box, meal)) > 1
    ensures u.result.Err? ==> u == Upsert(Err(MultipleObjectsReturned), items, nextId)
    ensures u.nextId == nextId + (if Count(items, IsItem(box, meal)) == 0 then 1 else 0)
    ensures Count(items, IsItem(box, meal)) == 0 ==> u.result == Ok(nextId)
  {
    var n := Count(items, IsItem(box, meal));
    if n == 0 then
      Upsert(Ok(nextId), items + [MealBoxItem(nextId, box, meal, q)], nextId + 1)
    else if n == 1 then
      var k := FirstIndex(items, IsItem(box, meal));
      Upsert(Ok(items[k].id), items[k := items[k].(quantity := items[k].quantity + q)], nextId)
    else
      Upsert(Err(MultipleObjectsReturned), items, nextId)
  }

  /** A new item of the pair gets exactly `q`. */
  lemma AddCreates(items: seq<MealBoxItem>, nextId: nat, box: nat, meal: nat, q: int)
    requires Count(items, IsItem(box, meal)) == 0
    ensures UpsertItem(items, nextId, box, meal, q) == Upsert(Ok(nextId), items + [MealBoxItem(nextId, box, meal, q)], nextId + 1)
    ensures Filter(items + [MealBoxItem(nextId, box, meal, q)], IsItem(box, meal)) == [MealBoxItem(nextId, box, meal, q)]
    ensures Filter(items + [MealBoxItem(nextId, box, meal, q)], OtherItem(box, meal)) == Filter(items, OtherItem(box, meal))
  {
    AppendNewItem(items, MealBoxItem(nextId, box, meal, q));
  }

  /** The existing item of the pair grows by `q` and keeps its key. */
  lemma AddGrows(items: seq<MealBoxItem>, nextId: nat, box: nat, meal: nat, q: int)
    requires Count(items, IsItem(box, meal)) == 1
    ensures var k := FirstIndex(items, IsItem(box, meal));
      var x := MealBoxItem(items[k].id, box, meal, items[k].quantity + q);
      UpsertItem(items, nextId, box, meal, q) == Upsert(Ok(items[k].id), items[k := x], nextId)
      && Filter(items[k := x], IsItem(box, meal)) == [x]
      && Filter(items[k := x], OtherItem(box, meal)) == Filter(items, OtherItem(box, meal))
  {
    var k := FirstIndex(items, IsItem(box, meal));
    var y := items[k];
    assert y.box == box && y.meal == meal;
    var x := MealBoxItem(y.id, box, meal, y.quantity + q);
    assert x == y.(quantity := y.quantity + q);
    UpdateOnlyItem(items, k, x);
  }

  /** After `add` the (box, meal) item is the only one of the pair, its
      quantity is the quantity before (0 for a new item) plus `q`, its key is the
      result, and every other item is as it was. */
  lemma AddUpserts(items: seq<MealBoxItem>, nextId: nat, box: nat, meal: nat, q: int)
    requires Count(items, IsItem(box, meal)) <= 1
    ensures var u := UpsertItem(items, nextId, box, meal, q);
      u.result.Ok?
      && Filter(u.items, IsItem(box, meal)) == [MealBoxItem(u.result.value, box, meal, QuantityBefore(items, box, meal) + q)]
      && Filter(u.items, OtherItem(box, meal)) == Filter(items, OtherItem(box, meal))
  {
    if Count(items, IsItem(box, meal)) == 0 {
      AddCreates(items, nextId, box, meal, q);
    } else {
      AddGrows(items, nextId, box, meal, q);
    }
  }

  /** Creating the (box, meal) item that was missing makes it the only one,
      and the other items' filter is unchanged. */
  lemma AppendNewItem(items: seq<MealBoxItem>, x: MealBoxItem)
    requires Count(items, IsItem(x.box, x.meal)) == 0
    ensures Filter(items + [x], IsItem(x.box, x.meal)) == [x]
    ensures Filter(items + [x], OtherItem(x.box, x.meal)) == Filter(items, OtherItem(x.box, x.meal))
  {
    FilterAppend(items, [x], IsItem(x.box, x.meal));
    FilterAppend(items, [x], OtherItem(x.box, x.meal));
    FilterNone(items, IsItem(x.box, x.meal));
  }

  /** Updating the only (box, meal) item keeps it the only one, and leaves
      the other items' filter alone. */
  lemma UpdateOnlyItem(items: seq<MealBoxItem>, k: nat, x: MealBoxItem)
    requires k < |items| && items[k].box == x.box && items[k].meal == x.meal
    requires Count(items, IsItem(x.box, x.meal)) == 1
    ensures Filter(items[k := x], IsItem(x.box, x.meal)) == [x]
    ensures Filter(items[k := x], OtherItem(x.box, x.meal)) == Filter(items, OtherItem(x.box, x.meal))
  {
    FilterUpdateOnly(items, k, x, IsItem(x.box, x.meal));
    FilterUpdateOutside(items, k, x, OtherItem(x.box, x.meal));
  }
}
