/** The expense list of the expense-tracker screen: an ordered sequence of
    records that the user appends to and filters, the running total shown in
    the header, the decision taken after every change about writing the list
    to storage and scrolling it, and the two-state highlight of each row. */
module ExpenseTracker {
  import opened Wrappers
  import opened JsNumber

  /** One expense record; `amount` is whatever text the user typed. */
  datatype Expense = Expense(id: int, title: string, amount: string)

  /** Ids strictly increase in list order; the list is keyed on them. */
  ghost predicate IdsIncreasing(xs: seq<Expense>) {
    forall i, j :: 0 <= i < j < |xs| ==> xs[i].id < xs[j].id
  }

  /** The number of records carrying `id`. */
  function Occurrences(xs: seq<Expense>, id: int): nat {
    if xs == [] then 0 else (if xs[0].id == id then 1 else 0) + Occurrences(xs[1..], id)
  }

  /** `ys` is `xs` with some records dropped and the rest in their order. */
  ghost predicate IsSubsequence(ys: seq<Expense>, xs: seq<Expense>)
    decreases |xs|
  {
    if ys == [] then true
    else if xs == [] then false
    else (ys[0] == xs[0] && IsSubsequence(ys[1..], xs[1..])) || IsSubsequence(ys, xs[1..])
  }

  // ---------------------------------------------------------------------
  // Adding and removing

  /** The id the next record gets: one more than the LAST record's id (not
      the largest), or 1 for an empty list. On a list whose ids increase it
      is larger than every id present. */
  function NextId(xs: seq<Expense>): (id: int)
    ensures xs == [] ==> id == 1
    ensures xs != [] ==> id == xs[|xs| - 1].id + 1
    ensures IdsIncreasing(xs) ==> forall i :: 0 <= i < |xs| ==> xs[i].id < id
  {
    if |xs| == 0 then 1 else xs[|xs| - 1].id + 1
  }

  /** The list after pressing Add with the given inputs: unchanged when either
      input is empty, otherwise one new record at the end. */
  function WithAdded(xs: seq<Expense>, title: string, amount: string): (ys: seq<Expense>)
    ensures title == "" || amount == "" ==> ys == xs
    ensures title != "" && amount != "" ==>
      |ys| == |xs| + 1 && ys[..|xs|] == xs && ys[|xs|] == Expense(NextId(xs), title, amount)
    ensures IdsIncreasing(xs) ==> IdsIncreasing(ys)
  {
    if title != "" && amount != "" then xs + [Expense(NextId(xs), title, amount)] else xs
  }

  /** The list after removing `id`: the records with another id, and as many
      of them as `xs` holds. */
  function WithoutId(xs: seq<Expense>, id: int): (ys: seq<Expense>)
    ensures forall e :: e in ys <==> e in xs && e.id != id
    ensures |ys| == |xs| - Occurrences(xs, id)
    decreases |xs|
  {
    if xs == [] then []
    else if xs[0].id == id then WithoutId(xs[1..], id)
    else [xs[0]] + WithoutId(xs[1..], id)
  }

  /** Remove keeps the surviving records in their original order. */
  lemma {:induction false} WithoutIdIsSubsequence(xs: seq<Expense>, id: int)
    ensures IsSubsequence(WithoutId(xs, id), xs)
    decreases |xs|
  {
    if xs != [] {
      var rest := WithoutId(xs[1..], id);
      WithoutIdIsSubsequence(xs[1..], id);
      if xs[0].id != id {
        assert ([xs[0]] + rest)[1..] == rest;
      } else if rest != [] {
        assert IsSubsequence(rest, xs[1..]);
      }
    }
  }

  /** Removing an id no record carries changes nothing. */
  lemma {:induction false} WithoutUnknownId(xs: seq<Expense>, id: int)
    requires forall i :: 0 <= i < |xs| ==> xs[i].id != id
    ensures WithoutId(xs, id) == xs
    decreases |xs|
  {
    if xs != [] {
      assert xs[0].id != id;
      WithoutUnknownId(xs[1..], id);
      assert xs == [xs[0]] + xs[1..];
    }
  }

  lemma {:induction false} WithoutIdAbove(xs: seq<Expense>, id: int, bound: int)
    requires forall i :: 0 <= i < |xs| ==> bound < xs[i].id
    ensures forall i :: 0 <= i < |WithoutId(xs, id)| ==> bound < WithoutId(xs, id)[i].id
    decreases |xs|
  {
    if xs != [] {
      WithoutIdAbove(xs[1..], id, bound);
    }
  }

  lemma IdsIncreasingTail(xs: seq<Expense>)
    requires xs != [] && IdsIncreasing(xs)
    ensures IdsIncreasing(xs[1..])
    ensures forall i :: 0 <= i < |xs[1..]| ==> xs[0].id < xs[1..][i].id
  {
    var tail := xs[1..];
    forall i, j | 0 <= i < j < |tail| ensures tail[i].id < tail[j].id {
      assert tail[i] == xs[i + 1] && tail[j] == xs[j + 1];
    }
    forall i | 0 <= i < |tail| ensures xs[0].id < tail[i].id {
      assert tail[i] == xs[i + 1];
    }
  }

  lemma IdsIncreasingCons(x: Expense, rest: seq<Expense>)
    requires IdsIncreasing(rest)
    requires forall i :: 0 <= i < |rest| ==> x.id < rest[i].id
    ensures IdsIncreasing([x] + rest)
  {
    var ys := [x] + rest;
    forall i, j | 0 <= i < j < |ys| ensures ys[i].id < ys[j].id {
      assert ys[j] == rest[j - 1];
      if i > 0 {
        assert ys[i] == rest[i - 1];
      }
    }
  }

  /** Remove keeps ids strictly increasing. */
  lemma {:induction false} WithoutIdKeepsIdsIncreasing(xs: seq<Expense>, id: int)
    requires IdsIncreasing(xs)
    ensures IdsIncreasing(WithoutId(xs, id))
    decreases |xs|
  {
    if xs != [] {
      var tail := xs[1..];
      IdsIncreasingTail(xs);
      WithoutIdKeepsIdsIncreasing(tail, id);
      if xs[0].id != id {
        WithoutIdAbove(tail, id, xs[0].id);
        IdsIncreasingCons(xs[0], WithoutId(tail, id));
      }
    }
  }

  /** No record with the removed id is left. */
  lemma RemovedIdAbsent(xs: seq<Expense>, id: int)
    ensures forall i :: 0 <= i < |WithoutId(xs, id)| ==> WithoutId(xs, id)[i].id != id
  {
    var ys := WithoutId(xs, id);
    forall i | 0 <= i < |ys| ensures ys[i].id != id {
      assert ys[i] in ys;
    }
  }

  /** On a list whose ids increase, distinct records have distinct keys
      (`id.toString()`), as the list view requires. */
  lemma KeysUnique(xs: seq<Expense>)
    requires IdsIncreasing(xs)
    ensures forall i, j :: 0 <= i < j < |xs| ==> IntToString(xs[i].id) != IntToString(xs[j].id)
  {
    forall i, j | 0 <= i < j < |xs| ensures IntToString(xs[i].id) != IntToString(xs[j].id) {
      IntToStringInjective(xs[i].id, xs[j].id);
    }
  }

  /** Ids can be reused: removing the last record leaves the rest, and the
      next Add then gets 1 if nothing is left, otherwise an id no larger than
      the removed one, and exactly the removed one when it followed its
      predecessor's id by one. */
  lemma NextIdAfterRemovingLast(xs: seq<Expense>)
    requires xs != [] && IdsIncreasing(xs)
    ensures WithoutId(xs, xs[|xs| - 1].id) == xs[..|xs| - 1]
    ensures |xs| == 1 ==> NextId(WithoutId(xs, xs[0].id)) == 1
    ensures |xs| >= 2 ==> NextId(WithoutId(xs, xs[|xs| - 1].id)) <= xs[|xs| - 1].id
    ensures |xs| >= 2 && xs[|xs| - 2].id + 1 == xs[|xs| - 1].id ==>
      NextId(WithoutId(xs, xs[|xs| - 1].id)) == xs[|xs| - 1].id
  {
    var front := xs[..|xs| - 1];
    WithoutLastId(xs);
    if |xs| >= 2 {
      assert front[|front| - 1] == xs[|xs| - 2];
      assert xs[|xs| - 2].id < xs[|xs| - 1].id;
      assert NextId(front) == xs[|xs| - 2].id + 1;
    }
  }

  lemma {:induction false} WithoutLastId(xs: seq<Expense>)
    requires xs != [] && IdsIncreasing(xs)
    ensures WithoutId(xs, xs[|xs| - 1].id) == xs[..|xs| - 1]
    decreases |xs|
  {
    var k := xs[|xs| - 1].id;
    if |xs| > 1 {
      var tail := xs[1..];
      assert tail[|tail| - 1].id == k;
      assert IdsIncreasing(tail) by {
        forall i, j | 0 <= i < j < |tail| ensures tail[i].id < tail[j].id {
          assert tail[i] == xs[i + 1] && tail[j] == xs[j + 1];
        }
      }
      WithoutLastId(tail);
      assert xs[0].id < k;
      assert xs[..|xs| - 1] == [xs[0]] + tail[..|tail| - 1];
    }
  }

  /** Adding two records to an empty list, removing the second and adding a
      third hands out id 2 a second time. */
  lemma IdReusedExample(t1: string, a1: string, t2: string, a2: string, t3: string, a3: string)
    requires t1 != "" && a1 != "" && t2 != "" && a2 != "" && t3 != "" && a3 != ""
    ensures WithAdded(WithAdded([], t1, a1), t2, a2) == [Expense(1, t1, a1), Expense(2, t2, a2)]
    ensures WithAdded(WithoutId([Expense(1, t1, a1), Expense(2, t2, a2)], 2), t3, a3) ==
      [Expense(1, t1, a1), Expense(2, t3, a3)]
  {
    var a, b, c := Expense(1, t1, a1), Expense(2, t2, a2), Expense(2, t3, a3);
    assert WithAdded([], t1, a1) == [a];
    assert [a] + [b] == [a, b];
    assert [a, b][1..] == [b] && [b][1..] == [];
    assert WithoutId([b], 2) == [];
    assert WithoutId([a, b], 2) == [a];
    assert [a] + [c] == [a, c];
  }

  // ---------------------------------------------------------------------
  // The running total

  /** One step of the header's `reduce`: the accumulator holds a Number,
      which is turned back into text and re-parsed before the record's
      amount is parsed and added. */
  function SumAmounts(acc: Option<int>, e: Expense): (r: Option<int>)
    ensures r == Plus(acc, ParseInt(e.amount))
  {
    Plus(ParseInt(ToJsString(acc)), ParseInt(e.amount))
  }

  /** `xs.reduce(sumAmounts, acc)`, folding from the left. */
  function Reduce(acc: Option<int>, xs: seq<Expense>): Option<int>
    decreases |xs|
  {
    if xs == [] then acc else Reduce(SumAmounts(acc, xs[0]), xs[1..])
  }

  /** The number shown in the header; `None` is `NaN`. */
  function Total(xs: seq<Expense>): Option<int> {
    Reduce(Some(0), xs)
  }

  /** Every amount has a leading integer. */
  predicate AllParse(xs: seq<Expense>) {
    forall i :: 0 <= i < |xs| ==> ParseInt(xs[i].amount).Some?
  }

  /** The sum of the leading integers of the amounts. */
  ghost function ParsedSum(xs: seq<Expense>): int
    requires AllParse(xs)
  {
    if xs == [] then 0 else ParseInt(xs[0].amount).value + ParsedSum(xs[1..])
  }

  lemma {:induction false} ReduceIsNaN(acc: Option<int>, xs: seq<Expense>)
    ensures Reduce(acc, xs).None? <==> acc.None? || !AllParse(xs)
    decreases |xs|
  {
    if xs != [] {
      ReduceIsNaN(SumAmounts(acc, xs[0]), xs[1..]);
      assert AllParse(xs) <==> ParseInt(xs[0].amount).Some? && AllParse(xs[1..]) by {
        if ParseInt(xs[0].amount).Some? && AllParse(xs[1..]) {
          forall i | 0 < i < |xs| ensures ParseInt(xs[i].amount).Some? {
            assert xs[i] == xs[1..][i - 1];
          }
        }
      }
    }
  }

  lemma {:induction false} ReduceSums(acc: int, xs: seq<Expense>)
    requires AllParse(xs)
    ensures Reduce(Some(acc), xs) == Some(acc + ParsedSum(xs))
    decreases |xs|
  {
    if xs != [] {
      assert AllParse(xs[1..]) by {
        forall i | 0 <= i < |xs| - 1 ensures ParseInt(xs[1..][i].amount).Some? {
          assert xs[1..][i] == xs[i + 1];
        }
      }
      var v := ParseInt(xs[0].amount).value;
      assert SumAmounts(Some(acc), xs[0]) == Some(acc + v);
      ReduceSums(acc + v, xs[1..]);
    }
  }

  /** The header shows 0 for no records, and `NaN` exactly when some amount
      has no leading integer. */
  lemma TotalIsNaN(xs: seq<Expense>)
    ensures xs == [] ==> Total(xs) == Some(0)
    ensures Total(xs).None? <==> exists i :: 0 <= i < |xs| && ParseInt(xs[i].amount).None?
  {
    ReduceIsNaN(Some(0), xs);
  }

  /** When every amount has a leading integer, the header shows the sum of
      those integers (`"12.50"` counts as 12). */
  lemma TotalIsParsedSum(xs: seq<Expense>)
    requires AllParse(xs)
    ensures Total(xs) == Some(ParsedSum(xs))
  {
    ReduceSums(0, xs);
  }

  lemma {:induction false} ReduceSnoc(acc: Option<int>, xs: seq<Expense>, e: Expense)
    ensures Reduce(acc, xs + [e]) == SumAmounts(Reduce(acc, xs), e)
    decreases |xs|
  {
    if xs == [] {
      assert [] + [e] == [e];
    } else {
      assert (xs + [e])[0] == xs[0];
      assert (xs + [e])[1..] == xs[1..] + [e];
      ReduceSnoc(SumAmounts(acc, xs[0]), xs[1..], e);
    }
  }

  /** A successful Add adds the new amount's leading integer to the total
      (or makes it `NaN`); a rejected Add leaves the total alone. */
  lemma TotalAfterAdd(xs: seq<Expense>, title: string, amount: string)
    ensures Total(WithAdded(xs, title, amount)) ==
      if title != "" && amount != "" then Plus(Total(xs), ParseInt(amount)) else Total(xs)
  {
    if title != "" && amount != "" {
      ReduceSnoc(Some(0), xs, Expense(NextId(xs), title, amount));
    }
  }

  /** Starting empty and adding "Coffee" for "5" gives one record with id 1
      and a total of 5. */
  lemma CoffeeExample()
    ensures WithAdded([], "Coffee", "5") == [Expense(1, "Coffee", "5")]
    ensures Total(WithAdded([], "Coffee", "5")) == Some(5)
  {
    assert "5" == "" + "" + "5" + "";
    assert DigitsValue("5") == 5 by {
      assert "5"[..0] == "";
    }
    ParseIntLeadingInteger("", "", "5", "");
    TotalAfterAdd([], "Coffee", "5");
  }

  // ---------------------------------------------------------------------
  // Persisting and scrolling after a change

  /** What the effect that runs after every change to the list does. */
  datatype PersistStep =
    | Skip                 // empty list: storage is not touched
    | Persist(scroll: bool) // the list is written; scroll to the newest end or not
    | PersistThenThrow     // the list is written, then reading the length of a stored null throws

  /** The decision, given the current list and the value read from storage
      just before the write (`None` for a stored null). */
  function StoreAndScroll(current: seq<Expense>, stored: Option<seq<Expense>>): (step: PersistStep)
    ensures step.Skip? <==> current == []
    ensures step.PersistThenThrow? <==> current != [] && stored.None?
    ensures step == Persist(true) <==> current != [] && stored.Some? && |stored.value| < |current|
  {
    if |current| == 0 then Skip
    else if stored.None? then PersistThenThrow
    else Persist(|stored.value| < |current|)
  }

  /** When storage mirrors the list before the change, a successful Add is
      written and scrolled to. */
  lemma ScrollsAfterAdd(xs: seq<Expense>, title: string, amount: string)
    requires title != "" && amount != ""
    ensures StoreAndScroll(WithAdded(xs, title, amount), Some(xs)) == Persist(true)
  {
  }

  /** When storage mirrors the list before the change, Remove never scrolls;
      it is written unless it emptied the list. */
  lemma NoScrollAfterRemove(xs: seq<Expense>, id: int)
    ensures var ys := WithoutId(xs, id);
      StoreAndScroll(ys, Some(xs)) == if ys == [] then Skip else Persist(false)
  {
  }

  /** Storage is never cleared: once a Remove empties the list nothing is
      written, the last non-empty list stays stored, and the next Add finds a
      stored list as long as the new one, so it does not scroll. */
  lemma AddAfterEmptyingDoesNotScroll(r: Expense, title: string, amount: string)
    requires title != "" && amount != ""
    ensures WithoutId([r], r.id) == []
    ensures StoreAndScroll(WithoutId([r], r.id), Some([r])) == Skip
    ensures StoreAndScroll(WithAdded([], title, amount), Some([r])) == Persist(false)
  {
    assert [r][1..] == [];
  }

  /** On a fresh install storage holds null, so the first Add is written and
      then throws before it can scroll. */
  lemma FirstAddOnFreshInstall(title: string, amount: string)
    requires title != "" && amount != ""
    ensures StoreAndScroll(WithAdded([], title, amount), None) == PersistThenThrow
  {
  }

  /** Storage as this screen leaves it: null, or a list that is not empty. */
  predicate StoredNonEmpty(stored: Option<seq<Expense>>) {
    stored.None? || stored.value != []
  }

  // ---------------------------------------------------------------------
  // The screen and its rows

  /** The screen's state: the expense list, the two input fields, and the
      value held in storage under the key "expenses" (`None` for null). */
  class ExpenseTrackerScreen {
    var expenses: seq<Expense>
    var title: string
    var amount: string
    var stored: Option<seq<Expense>>

    /** Mounting starts with no records and the inputs' initial values;
        storage holds whatever an earlier session left there. */
    constructor (storedAtMount: Option<seq<Expense>>)
      ensures expenses == [] && title == "Expense" && amount == "100"
      ensures stored == storedAtMount
    {
      expenses := [];
      title := "Expense";
      amount := "100";
      stored := storedAtMount;
    }

    /** Reading storage at mount: a stored null gives an empty list. */
    method Rehydrate()
      modifies this`expenses
      ensures expenses == if stored.Some? then stored.value else []
    {
      expenses := if stored.Some? then stored.value else [];
    }

    /** The effect that runs after every change of the list: it reads the
        stored list, writes the current one unless it is empty, and reports
        whether the list scrolls. After a write storage mirrors the list;
        after a skip it keeps its previous value. */
    method StoreAndScrollEffect() returns (step: PersistStep)
      modifies this`stored
      ensures step == StoreAndScroll(expenses, old(stored))
      ensures stored == if step.Skip? then old(stored) else Some(expenses)
      ensures !step.Skip? ==> stored == Some(expenses)
      ensures StoredNonEmpty(old(stored)) ==> StoredNonEmpty(stored)
    {
      step := StoreAndScroll(expenses, stored);
      if !step.Skip? {
        stored := Some(expenses);
      }
    }

    method ChangeTitle(text: string)
      modifies this`title
      ensures title == text
    {
      title := text;
    }

    method ChangeAmount(text: string)
      modifies this`amount
      ensures amount == text
    {
      amount := text;
    }

    /** Pressing Add; `changed` tells whether the list was replaced (and so
        whether the persist-and-scroll effect runs). The inputs are kept. */
    method AddExpense() returns (changed: bool)
      modifies this`expenses
      ensures changed <==> title != "" && amount != ""
      ensures expenses == WithAdded(old(expenses), title, amount)
      ensures changed ==> expenses[|expenses| - 1].id == NextId(old(expenses))
      ensures IdsIncreasing(old(expenses)) ==> IdsIncreasing(expenses)
    {
      changed := title != "" && amount != "";
      if changed {
        var latest := NextId(expenses);
        expenses := expenses + [Expense(latest, title, amount)];
      }
    }

    method RemoveExpense(id: int)
      modifies this`expenses
      ensures expenses == WithoutId(old(expenses), id)
      ensures IdsIncreasing(old(expenses)) ==> IdsIncreasing(expenses)
    {
      if IdsIncreasing(expenses) {
        WithoutIdKeepsIdsIncreasing(expenses, id);
      }
      expenses := WithoutId(expenses, id);
    }
  }

  /** One rendered row: normal, or highlighted with Remove and Cancel. */
  class Item {
    const id: int
    const title: string
    const amount: string
    var highlighted: bool

    constructor (e: Expense)
      ensures id == e.id && title == e.title && amount == e.amount
      ensures !highlighted
    {
      id, title, amount := e.id, e.title, e.amount;
      highlighted := false;
    }

    /** Long press on the row, offered only while it is not highlighted. */
    method HighlightItem()
      requires !highlighted
      modifies this
      ensures highlighted
    {
      highlighted := true;
    }

    /** Cancel, offered only on a highlighted row. */
    method NotHighlightItem()
      requires highlighted
      modifies this
      ensures !highlighted
    {
      highlighted := false;
    }

    /** Remove on a highlighted row (the only state that shows it). */
    method PressRemove(screen: ExpenseTrackerScreen)
      requires highlighted
      modifies screen`expenses
      ensures screen.expenses == WithoutId(old(screen.expenses), id)
    {
      screen.RemoveExpense(id);
    }
  }
  /** A session on a fresh install: add a record, remove it, add another.
      The first write throws on the stored null, the removal writes nothing,
      and the second Add finds the removed record still stored, so the list
      does not scroll although a record was added. */
  method EmptyingThenAddingDoesNotScroll(title: string, amount: string) returns (steps: seq<PersistStep>)
    requires title != "" && amount != ""
    ensures steps == [PersistThenThrow, Skip, Persist(false)]
  {
    var screen := new ExpenseTrackerScreen(None);
    screen.ChangeTitle(title);
    screen.ChangeAmount(amount);
    var changed := screen.AddExpense();
    var first := screen.StoreAndScrollEffect();
    var r := Expense(1, title, amount);
    assert screen.expenses == [r];
    screen.RemoveExpense(1);
    AddAfterEmptyingDoesNotScroll(r, title, amount);
    var second := screen.StoreAndScrollEffect();
    changed := screen.AddExpense();
    var third := screen.StoreAndScrollEffect();
    steps := [first, second, third];
  }
}
