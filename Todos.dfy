/**
 * The todo-list page: adding a task, the active/completed split, the progress
 * ratio, the two display orders, and the colour of each priority.
 */
module Todos {
  import opened JsStrings
  import opened Sequences
  import opened DataStore

  // ---------------------------------------------------------------- adding

  /** `handleAdd`'s guard: the typed text is not empty once trimmed. */
  predicate CanAdd(task: string) {
    Trim(task) != []
  }

  /** A task can be added exactly when it holds a character that is not white space. */
  lemma CanAddSpec(task: string)
    ensures CanAdd(task) <==> !AllWhitespace(task)
  {
    TrimEmpty(task);
  }

  /** The empty task and a task of blanks only are both refused. */
  lemma BlankTasks()
    ensures !CanAdd("") && !CanAdd(" \t\n")
  {
    var blank := " \t\n";
    assert AllWhitespace(blank) by {
      assert blank[0] as int == 0x20 && blank[1] as int == 0x09 && blank[2] as int == 0x0A;
    }
    TrimEmpty(blank);
  }

  /** The todo `handleAdd` creates: not complete, with the title as typed (untrimmed). */
  function NewTodo(id: string, task: string, priority: Priority, due: int): Todo {
    Todo(id, task, false, priority, due)
  }

  /** The todo page's input state; the list itself lives in the shared store. */
  class TodoPage {
    const store: Store
    var task: string
    var priority: Priority
    /** The date input, `yyyy-MM-dd`, or empty. */
    var dueDate: string

    constructor (store: Store)
      ensures this.store == store && task == "" && priority == Medium && dueDate == ""
    {
      this.store := store;
      task := "";
      priority := Medium;
      dueDate := "";
    }

    /**
     * `handleAdd`: a blank task changes nothing; otherwise the new todo goes
     * first in the store, and the task and date inputs are cleared while the
     * chosen priority stays. `parsedDue` is the instant the date input names
     * and `now` the current instant, used when no date was chosen.
     */
    method HandleAdd(freshId: string, parsedDue: int, now: int)
      modifies this`task, this`dueDate, store`todos
      ensures !CanAdd(old(task)) ==>
        task == old(task) && dueDate == old(dueDate) && store.todos == old(store.todos)
      ensures CanAdd(old(task)) ==>
        && store.todos == [NewTodo(freshId, old(task), priority,
                                   if old(dueDate) != "" then parsedDue else now)] + old(store.todos)
        && task == "" && dueDate == ""
    {
      if !CanAdd(task) {
        return;
      }
      var todo := NewTodo(freshId, task, priority, if dueDate != "" then parsedDue else now);
      store.AddTodo(todo);
      task := "";
      dueDate := "";
    }
  }

  // ---------------------------------------------------------------- partition and progress

  function ActiveTodos(todos: seq<Todo>): seq<Todo> {
    Filter(todos, (t: Todo) => !t.isComplete)
  }

  function CompletedTodos(todos: seq<Todo>): seq<Todo> {
    Filter(todos, (t: Todo) => t.isComplete)
  }

  /** Every todo is in exactly one of the two lists, and together they are the whole list. */
  lemma Partition(todos: seq<Todo>)
    ensures |ActiveTodos(todos)| + |CompletedTodos(todos)| == |todos|
    ensures multiset(ActiveTodos(todos)) + multiset(CompletedTodos(todos)) == multiset(todos)
    ensures forall i :: 0 <= i < |todos| ==>
      (todos[i] in ActiveTodos(todos) <==> !todos[i].isComplete)
      && (todos[i] in CompletedTodos(todos) <==> todos[i].isComplete)
  {
    FilterPartition(todos, (t: Todo) => !t.isComplete, (t: Todo) => t.isComplete);
  }

  /** `progress`: the share of completed todos, in percent; 0 for an empty list. */
  function Progress(todos: seq<Todo>): (r: real)
    ensures todos == [] ==> r == 0.0
    ensures 0.0 <= r <= 100.0
    ensures r == 100.0 <==> todos != [] && forall i :: 0 <= i < |todos| ==> todos[i].isComplete
  {
    FilterKeepsAll(todos, (t: Todo) => t.isComplete);
    if |todos| > 0 then
      Percent(|CompletedTodos(todos)|, |todos|);
      (|CompletedTodos(todos)| as real / |todos| as real) * 100.0
    else 0.0
  }

  lemma Percent(part: nat, whole: nat)
    requires 0 < whole && part <= whole
    ensures 0.0 <= (part as real / whole as real) * 100.0 <= 100.0
    ensures (part as real / whole as real) * 100.0 == 100.0 <==> part == whole
  {
    var q := part as real / whole as real;
    assert q * (whole as real) == part as real;
    if q == 1.0 {
      assert part == whole;
    }
  }

  // ---------------------------------------------------------------- ordering

  /** The weights of the active-list comparator: HIGH 3, MEDIUM 2, LOW 1. */
  function Rank(p: Priority): int {
    match p
    case High => 3
    case Medium => 2
    case Low => 1
  }

  /** The two comparators the page sorts with. */
  datatype Order = PriorityThenDue | DueDescending

  /** The comparator's return value: negative when `a` goes first. */
  function Compare(o: Order, a: Todo, b: Todo): int {
    match o
    case PriorityThenDue =>
      if Rank(a.priority) != Rank(b.priority) then Rank(b.priority) - Rank(a.priority)
      else a.dueDate - b.dueDate
    case DueDescending => b.dueDate - a.dueDate
  }

  /** `a` may stand before `b` in a list sorted with the comparator. */
  predicate Before(o: Order, a: Todo, b: Todo) {
    Compare(o, a, b) <= 0
  }

  predicate SortedBy(s: seq<Todo>, o: Order) {
    forall i, j :: 0 <= i < j < |s| ==> Before(o, s[i], s[j])
  }

  /** Each comparator is a total preorder: any two todos are comparable, and it is transitive. */
  lemma BeforeTotal(o: Order, a: Todo, b: Todo)
    ensures Before(o, a, b) || Before(o, b, a)
  {
  }

  lemma BeforeTransitive(o: Order, a: Todo, b: Todo, c: Todo)
    requires Before(o, a, b) && Before(o, b, c)
    ensures Before(o, a, c)
  {
  }

  /**
   * What the active order means: higher priorities come first, and within one
   * priority the earlier due date; the completed order puts the latest due date first.
   */
  lemma SortedMeaning(s: seq<Todo>, o: Order, i: int, j: int)
    requires SortedBy(s, o) && 0 <= i < j < |s|
    ensures o == PriorityThenDue ==> Rank(s[i].priority) >= Rank(s[j].priority)
    ensures o == PriorityThenDue && s[i].priority == s[j].priority ==> s[i].dueDate <= s[j].dueDate
    ensures o == PriorityThenDue && s[j].priority == High ==> s[i].priority == High
    ensures o == PriorityThenDue && s[i].priority == Low ==> s[j].priority == Low
    ensures o == DueDescending ==> s[i].dueDate >= s[j].dueDate
  {
    assert Before(o, s[i], s[j]);
  }

  /** Two todos the comparator cannot tell apart (it returns 0). */
  predicate Tied(o: Order, a: Todo, b: Todo) {
    Compare(o, a, b) == 0
  }

  /** The todos tied with `e`, as a filter. */
  function TiedWith(o: Order, e: Todo): Todo -> bool {
    (t: Todo) => Tied(o, t, e)
  }

  /** Ties are an equivalence, and tied todos may stand either way round. */
  lemma TiedEquivalence(o: Order, a: Todo, b: Todo, c: Todo)
    ensures Tied(o, a, a)
    ensures Tied(o, a, b) ==> Tied(o, b, a) && Before(o, a, b) && Before(o, b, a)
    ensures Tied(o, a, b) && Tied(o, b, c) ==> Tied(o, a, c)
  {
  }

  /**
   * Inserting `x` into a sorted list from the back: `x` passes every element
   * that must come after it and stops behind the first one that may come before it.
   */
  function InsertSorted(s: seq<Todo>, x: Todo, o: Order): seq<Todo> {
    if s == [] then [x]
    else if Before(o, s[|s| - 1], x) then s + [x]
    else InsertSorted(s[..|s| - 1], x, o) + [s[|s| - 1]]
  }

  /** The order the page shows: insertion sort, which is stable, as `Array.prototype.sort` must be. */
  function SortSpec(s: seq<Todo>, o: Order): seq<Todo> {
    if s == [] then [] else InsertSorted(SortSpec(s[..|s| - 1], o), s[|s| - 1], o)
  }

  lemma {:induction false} InsertSortedPermutation(s: seq<Todo>, x: Todo, o: Order)
    ensures multiset(InsertSorted(s, x, o)) == multiset(s) + multiset{x}
  {
    if s != [] {
      var init, last := s[..|s| - 1], s[|s| - 1];
      assert s == init + [last];
      if !Before(o, last, x) {
        InsertSortedPermutation(init, x, o);
      }
    }
  }

  /** The reference sort rearranges its input: nothing is lost or added. */
  lemma {:induction false} SortSpecPermutation(s: seq<Todo>, o: Order)
    ensures multiset(SortSpec(s, o)) == multiset(s)
  {
    if s != [] {
      var init, last := s[..|s| - 1], s[|s| - 1];
      assert s == init + [last];
      SortSpecPermutation(init, o);
      InsertSortedPermutation(SortSpec(init, o), last, o);
    }
  }

  lemma {:induction false} InsertSortedSorted(s: seq<Todo>, x: Todo, o: Order)
    requires SortedBy(s, o)
    ensures SortedBy(InsertSorted(s, x, o), o)
  {
    if s != [] {
      var init, last := s[..|s| - 1], s[|s| - 1];
      if Before(o, last, x) {
        forall i | 0 <= i < |s| - 1 ensures Before(o, s[i], x) {
          BeforeTransitive(o, s[i], last, x);
        }
      } else {
        InsertSortedSorted(init, x, o);
        InsertSortedPermutation(init, x, o);
        var r := InsertSorted(init, x, o);
        forall i | 0 <= i < |r| ensures Before(o, r[i], last) {
          assert r[i] in multiset(init) + multiset{x};
          if r[i] != x {
            var k :| 0 <= k < |init| && init[k] == r[i];
          }
        }
      }
    }
  }

  /** The reference sort yields a sorted list. */
  lemma {:induction false} SortSpecSorted(s: seq<Todo>, o: Order)
    ensures SortedBy(SortSpec(s, o), o)
  {
    if s != [] {
      SortSpecSorted(s[..|s| - 1], o);
      InsertSortedSorted(SortSpec(s[..|s| - 1], o), s[|s| - 1], o);
    }
  }

  lemma {:induction false} InsertSortedStable(s: seq<Todo>, x: Todo, o: Order, e: Todo)
    ensures Filter(InsertSorted(s, x, o), TiedWith(o, e)) == Filter(s, TiedWith(o, e)) + Filter([x], TiedWith(o, e))
  {
    var p := TiedWith(o, e);
    if s != [] {
      var init, last := s[..|s| - 1], s[|s| - 1];
      assert s == init + [last];
      FilterConcat(init, [last], p);
      if Before(o, last, x) {
        FilterConcat(s, [x], p);
      } else {
        var r := InsertSorted(init, x, o);
        assert InsertSorted(s, x, o) == r + [last];
        InsertSortedStable(init, x, o, e);
        FilterConcat(r, [last], p);
        TiedEquivalence(o, last, e, x);
        TiedEquivalence(o, x, e, last);
        assert Filter([x], p) == [] || Filter([last], p) == [];
      }
    }
  }

  /** The reference sort is stable: todos tied with any `e` keep their relative order. */
  lemma {:induction false} SortSpecStable(s: seq<Todo>, o: Order, e: Todo)
    ensures Filter(SortSpec(s, o), TiedWith(o, e)) == Filter(s, TiedWith(o, e))
  {
    if s != [] {
      var init, last, p := s[..|s| - 1], s[|s| - 1], TiedWith(o, e);
      var r := SortSpec(init, o);
      assert s == init + [last];
      calc {
        Filter(SortSpec(s, o), p);
        Filter(InsertSorted(r, last, o), p);
        { InsertSortedStable(r, last, o, e); }
        Filter(r, p) + Filter([last], p);
        { SortSpecStable(init, o, e); }
        Filter(init, p) + Filter([last], p);
        { FilterConcat(init, [last], p); }
        Filter(s, p);
      }
    }
  }

  /** `Array.prototype.sort` with one of the comparators, as an insertion sort in place. */
  method SortInPlace(a: array<Todo>, o: Order)
    modifies a
    ensures a[..] == SortSpec(old(a[..]), o)
  {
    ghost var s0 := a[..];
    var i := 0;
    while i < a.Length
      invariant 0 <= i <= a.Length
      invariant a[..i] == SortSpec(s0[..i], o)
      invariant a[i..] == s0[i..]
    {
      assert a[i] == s0[i];
      Insert(a, i, o);
      SortSpecStep(s0, i, o);
      i := i + 1;
    }
    assert a[..] == a[..a.Length] && s0[..a.Length] == s0;
  }

  lemma SortSpecStep(s: seq<Todo>, i: int, o: Order)
    requires 0 <= i < |s|
    ensures SortSpec(s[..i + 1], o) == InsertSorted(SortSpec(s[..i], o), s[i], o)
  {
    assert s[..i + 1][..i] == s[..i];
  }

  /** Moves `a[i]` down into the sorted prefix `a[..i]`: the prefix becomes `InsertSorted`. */
  method Insert(a: array<Todo>, i: int, o: Order)
    requires 0 <= i < a.Length
    modifies a
    ensures a[..i + 1] == InsertSorted(old(a[..i]), old(a[i]), o)
    ensures a[i + 1..] == old(a[i + 1..])
  {
    ghost var s := a[..i];
    var x := a[i];
    var j := i;
    while j > 0 && !Before(o, a[j - 1], x)
      invariant 0 <= j <= i
      invariant forall k :: 0 <= k < j ==> a[k] == s[k]
      invariant forall k :: j < k <= i ==> a[k] == s[k - 1]
      invariant forall k :: i < k < a.Length ==> a[k] == old(a[k])
      invariant forall k :: j <= k < i ==> !Before(o, s[k], x)
    {
      a[j] := a[j - 1];
      j := j - 1;
    }
    a[j] := x;
    InsertSortedAt(s, x, o, j);
    Assemble(a[..i + 1], s, x, j);
    assert a[i + 1..] == old(a[i + 1..]);
  }

  /** A list that agrees with `s` around position `j`, where it holds `x`, is `s` with `x` put in at `j`. */
  lemma Assemble(t: seq<Todo>, s: seq<Todo>, x: Todo, j: int)
    requires |t| == |s| + 1 && 0 <= j <= |s|
    requires forall k :: 0 <= k < j ==> t[k] == s[k]
    requires t[j] == x
    requires forall k :: j < k < |t| ==> t[k] == s[k - 1]
    ensures t == s[..j] + [x] + s[j..]
  {
  }

  /**
   * Where the insertion lands: `x` goes right after the last element it may follow,
   * passing every later element that must come after it.
   */
  lemma {:induction false} InsertSortedAt(s: seq<Todo>, x: Todo, o: Order, j: int)
    requires 0 <= j <= |s|
    requires j == 0 || Before(o, s[j - 1], x)
    requires forall k :: j <= k < |s| ==> !Before(o, s[k], x)
    ensures InsertSorted(s, x, o) == s[..j] + [x] + s[j..]
    decreases |s|
  {
    if |s| == j {
      assert s[..j] == s && s[j..] == [];
      if j > 0 {
        assert s == s[..j - 1] + [s[j - 1]];
      }
    } else {
      var init, last := s[..|s| - 1], s[|s| - 1];
      InsertSortedAt(init, x, o, j);
      assert init[..j] == s[..j];
      assert s[j..] == init[j..] + [last];
    }
  }

  /** The active tab's list: the incomplete todos, highest priority first, then earliest due. */
  method SortedActive(todos: seq<Todo>) returns (r: seq<Todo>)
    ensures r == SortSpec(ActiveTodos(todos), PriorityThenDue)
    ensures SortedBy(r, PriorityThenDue)
    ensures multiset(r) == multiset(ActiveTodos(todos))
    ensures forall i :: 0 <= i < |r| ==> !r[i].isComplete
  {
    var active := ActiveTodos(todos);
    var a := new Todo[|active|](k requires 0 <= k < |active| => active[k]);
    assert a[..] == active;
    SortInPlace(a, PriorityThenDue);
    r := a[..];
    SortSpecSorted(active, PriorityThenDue);
    SortSpecPermutation(active, PriorityThenDue);
    forall i | 0 <= i < |r| ensures !r[i].isComplete {
      assert r[i] in multiset(active);
    }
  }

  /** The completed tab's list: the completed todos, latest due first. */
  method SortedCompleted(todos: seq<Todo>) returns (r: seq<Todo>)
    ensures r == SortSpec(CompletedTodos(todos), DueDescending)
    ensures SortedBy(r, DueDescending)
    ensures multiset(r) == multiset(CompletedTodos(todos))
    ensures forall i :: 0 <= i < |r| ==> r[i].isComplete
  {
    var done := CompletedTodos(todos);
    var a := new Todo[|done|](k requires 0 <= k < |done| => done[k]);
    assert a[..] == done;
    SortInPlace(a, DueDescending);
    r := a[..];
    SortSpecSorted(done, DueDescending);
    SortSpecPermutation(done, DueDescending);
    forall i | 0 <= i < |r| ensures r[i].isComplete {
      assert r[i] in multiset(done);
    }
  }

  // ---------------------------------------------------------------- colours

  /** The priority as the page writes it. */
  function PriorityName(p: Priority): string {
    match p
    case High => "HIGH"
    case Medium => "MEDIUM"
    case Low => "LOW"
  }

  /** `getPriorityColor`: red for HIGH, orange for MEDIUM, green for any other string. */
  function PriorityColor(p: string): (c: string)
    ensures c == "red" <==> p == "HIGH"
    ensures c == "orange" <==> p == "MEDIUM"
    ensures c == "green" <==> p != "HIGH" && p != "MEDIUM"
  {
    if p == "HIGH" then "red" else if p == "MEDIUM" then "orange" else "green"
  }

  /** The three priorities get three different colours, matching their rank. */
  lemma PriorityColors()
    ensures PriorityColor(PriorityName(High)) == "red"
    ensures PriorityColor(PriorityName(Medium)) == "orange"
    ensures PriorityColor(PriorityName(Low)) == "green"
  {
  }
}
