/** The member dashboard: wishlist and notification updaters, the unread
    badge, and the goal board with its add, edit, progress and delete
    handlers. */
module UserDashboard {
  import opened Wrappers
  import opened Text
  import opened Lists

  datatype WishItem = WishItem(id: string, name: string, price: int)

  datatype Notification = Notification(id: int, title: string, read: bool)

  datatype Goal = Goal(id: int, goal: string, progress: int, total: int,
                       color: string, category: string, deadline: string)

  /** The goal form's contents. */
  datatype GoalDraft = GoalDraft(goal: string, total: int, category: string, deadline: string, color: string)

  const EmptyDraft: GoalDraft := GoalDraft("", 1, "Personal", "", "neo-cyan")

  // ----- wishlist and notifications -----------------------------------------

  /** `removeFromWishlist(productId)`. */
  function RemoveFromWishlist(wishlist: seq<WishItem>, productId: string): (r: seq<WishItem>)
    ensures forall i :: 0 <= i < |r| ==> r[i].id != productId
    ensures forall i :: 0 <= i < |wishlist| && wishlist[i].id != productId ==> wishlist[i] in r
    ensures IsSubsequence(r, wishlist)
  {
    var keep := (item: WishItem) => item.id != productId;
    FilterIsSubsequence(wishlist, keep);
    Filter(wishlist, keep)
  }

  /** `markNotificationAsRead(id)`. */
  function MarkNotificationAsRead(notes: seq<Notification>, id: int): (r: seq<Notification>)
    ensures |r| == |notes|
    ensures forall i :: 0 <= i < |notes| ==>
      r[i] == if notes[i].id == id then notes[i].(read := true) else notes[i]
  {
    seq(|notes|, i requires 0 <= i < |notes| =>
      if notes[i].id == id then notes[i].(read := true) else notes[i])
  }

  /** `clearNotification(id)`. */
  function ClearNotification(notes: seq<Notification>, id: int): (r: seq<Notification>)
    ensures forall i :: 0 <= i < |r| ==> r[i].id != id
    ensures forall i :: 0 <= i < |notes| && notes[i].id != id ==> notes[i] in r
    ensures IsSubsequence(r, notes)
  {
    var keep := (n: Notification) => n.id != id;
    FilterIsSubsequence(notes, keep);
    Filter(notes, keep)
  }

  /** The badge: `notifications.filter(n => !n.read).length`. */
  function UnreadCount(notes: seq<Notification>): (n: nat)
    ensures n <= |notes|
    ensures n == 0 <==> forall i :: 0 <= i < |notes| ==> notes[i].read
  {
    if notes == [] then 0
    else
      assert forall i :: 1 <= i < |notes| ==> notes[i] == notes[1..][i - 1];
      (if notes[0].read then 0 else 1) + UnreadCount(notes[1..])
  }

  /** Marking twice is marking once. */
  lemma MarkReadIdempotent(notes: seq<Notification>, id: int)
    ensures MarkNotificationAsRead(MarkNotificationAsRead(notes, id), id) == MarkNotificationAsRead(notes, id)
  {
  }

  /** An unread notification with the id `id`. */
  function UnreadWithId(id: int): Notification -> bool {
    (n: Notification) => n.id == id && !n.read
  }

  /** Marking a notification read lowers the badge by the unread notifications with that id. */
  lemma {:induction false} MarkReadCount(notes: seq<Notification>, id: int)
    ensures UnreadCount(MarkNotificationAsRead(notes, id))
         == UnreadCount(notes) - |Filter(notes, UnreadWithId(id))|
  {
    if notes != [] {
      MarkReadCount(notes[1..], id);
      assert MarkNotificationAsRead(notes, id)[1..] == MarkNotificationAsRead(notes[1..], id);
    }
  }

  /** No two notifications share an id. */
  predicate DistinctIds(notes: seq<Notification>) {
    forall i, j :: 0 <= i < j < |notes| ==> notes[i].id != notes[j].id
  }

  /** Among notifications with distinct ids, at most one is unread with a given id. */
  lemma {:induction false} UnreadWithIdCount(notes: seq<Notification>, id: int)
    requires DistinctIds(notes)
    ensures |Filter(notes, UnreadWithId(id))|
         == if exists i :: 0 <= i < |notes| && notes[i].id == id && !notes[i].read then 1 else 0
  {
    if notes != [] {
      var tail := notes[1..];
      assert DistinctIds(tail) by {
        forall i, j | 0 <= i < j < |tail| ensures tail[i].id != tail[j].id {
          assert tail[i] == notes[i + 1] && tail[j] == notes[j + 1];
        }
      }
      UnreadWithIdCount(tail, id);
      forall i | 0 <= i < |tail| ensures tail[i] == notes[i + 1] { }
      if notes[0].id == id {
        assert forall i :: 0 <= i < |tail| ==> tail[i].id != id;
      }
    }
  }

  /** With distinct ids, marking a notification read lowers the badge by one
      when it was unread, and leaves it otherwise. */
  lemma MarkReadLowersByOne(notes: seq<Notification>, id: int)
    requires DistinctIds(notes)
    ensures UnreadCount(MarkNotificationAsRead(notes, id))
         == UnreadCount(notes)
          - if exists i :: 0 <= i < |notes| && notes[i].id == id && !notes[i].read then 1 else 0
  {
    MarkReadCount(notes, id);
    UnreadWithIdCount(notes, id);
  }

  // ----- goals ----------------------------------------------------------------

  /** Progress shown as a fraction of the goal: within [0, total]. */
  predicate InRange(g: Goal) {
    0 <= g.progress <= g.total
  }

  predicate AllInRange(goals: seq<Goal>) {
    forall i :: 0 <= i < |goals| ==> InRange(goals[i])
  }

  /** `Math.max(0, Math.min(p, total))`: `p` when it lies in [0, total], the
      nearer end when it lies outside, and 0 when the total is negative. */
  function Clamp(p: int, total: int): (r: int)
    ensures r >= 0
    ensures total >= 0 ==> r <= total
    ensures 0 <= p <= total ==> r == p
    ensures p <= 0 ==> r == 0
    ensures p > total >= 0 ==> r == total
    ensures total < 0 ==> r == 0
  {
    var low := if p < total then p else total;
    if low > 0 then low else 0
  }

  /** `updateGoalProgress(goalId, p)`: the matching goal's progress becomes
      the clamp of `p`; every other goal is unchanged. */
  function UpdateGoalProgress(goals: seq<Goal>, goalId: int, p: int): (r: seq<Goal>)
    ensures |r| == |goals|
    ensures forall i :: 0 <= i < |goals| ==>
      r[i] == if goals[i].id == goalId then goals[i].(progress := Clamp(p, goals[i].total)) else goals[i]
  {
    seq(|goals|, i requires 0 <= i < |goals| =>
      if goals[i].id == goalId then goals[i].(progress := Clamp(p, goals[i].total)) else goals[i])
  }

  /** Updating progress keeps every goal's progress within its total. */
  lemma UpdateKeepsInRange(goals: seq<Goal>, goalId: int, p: int)
    requires AllInRange(goals)
    ensures AllInRange(UpdateGoalProgress(goals, goalId, p))
  {
    var r := UpdateGoalProgress(goals, goalId, p);
    forall i | 0 <= i < |r| ensures InRange(r[i]) {
      assert InRange(goals[i]);
    }
  }

  /** `deleteGoal(goalId)`. */
  function DeleteGoal(goals: seq<Goal>, goalId: int): (r: seq<Goal>)
    ensures forall i :: 0 <= i < |r| ==> r[i].id != goalId
    ensures forall i :: 0 <= i < |goals| && goals[i].id != goalId ==> goals[i] in r
    ensures IsSubsequence(r, goals)
  {
    var keep := (g: Goal) => g.id != goalId;
    FilterIsSubsequence(goals, keep);
    Filter(goals, keep)
  }

  /** The goal `addGoal` builds from the form, with `id` standing for `Date.now()`. */
  function NewGoal(draft: GoalDraft, id: int): Goal {
    Goal(id, Trim(draft.goal), 0, draft.total, draft.color, draft.category, draft.deadline)
  }

  /** The edit `saveEditedGoal` applies to the matching goal: the form's text
      as typed and its total, with id and progress kept. */
  function EditGoal(goals: seq<Goal>, goalId: int, draft: GoalDraft): (r: seq<Goal>)
    ensures |r| == |goals|
    ensures forall i :: 0 <= i < |goals| ==>
      r[i] == if goals[i].id == goalId
              then goals[i].(goal := draft.goal, total := draft.total, category := draft.category,
                             deadline := draft.deadline, color := draft.color)
              else goals[i]
  {
    seq(|goals|, i requires 0 <= i < |goals| =>
      if goals[i].id == goalId
      then goals[i].(goal := draft.goal, total := draft.total, category := draft.category,
                     deadline := draft.deadline, color := draft.color)
      else goals[i])
  }

  /** Editing does not re-clamp progress: lowering a goal's total below its
      progress leaves the goal out of range. */
  lemma EditCanExceedTotal()
    ensures var goals := [Goal(1, "Meditate", 7, 10, "neo-cyan", "Mindfulness", "")];
      AllInRange(goals) && !AllInRange(EditGoal(goals, 1, GoalDraft("Meditate", 5, "Mindfulness", "", "neo-cyan")))
  {
    var goals := [Goal(1, "Meditate", 7, 10, "neo-cyan", "Mindfulness", "")];
    var r := EditGoal(goals, 1, GoalDraft("Meditate", 5, "Mindfulness", "", "neo-cyan"));
    assert !InRange(r[0]);
  }

  /** The goal board's state. */
  class GoalBoard {
    var goals: seq<Goal>
    var newGoal: GoalDraft
    var showGoalForm: bool
    var editingGoal: Option<int>

    constructor (initial: seq<Goal>)
      ensures goals == initial && newGoal == EmptyDraft && !showGoalForm && editingGoal == None
    {
      goals := initial;
      newGoal := EmptyDraft;
      showGoalForm := false;
      editingGoal := None;
    }

    /** `addGoal`: a goal with non-blank text and a positive total is appended
        with progress 0 and trimmed text, and the form is reset and closed;
        otherwise nothing changes. */
    method AddGoal(freshId: int)
      modifies this
      ensures !IsBlank(old(newGoal.goal)) && old(newGoal.total) > 0 ==>
        && goals == old(goals) + [NewGoal(old(newGoal), freshId)]
        && newGoal == EmptyDraft && !showGoalForm
      ensures IsBlank(old(newGoal.goal)) || old(newGoal.total) <= 0 ==>
        goals == old(goals) && newGoal == old(newGoal) && showGoalForm == old(showGoalForm)
      ensures editingGoal == old(editingGoal)
    {
      if !IsBlank(newGoal.goal) && newGoal.total > 0 {
        var goal := NewGoal(newGoal, freshId);
        goals := goals + [goal];
        newGoal := EmptyDraft;
        showGoalForm := false;
      }
    }

    /** `startEditingGoal(goal)`: the form takes the goal's fields. */
    method StartEditingGoal(g: Goal)
      modifies this
      ensures editingGoal == Some(g.id)
      ensures newGoal == GoalDraft(g.goal, g.total, g.category, g.deadline, g.color)
      ensures goals == old(goals) && showGoalForm == old(showGoalForm)
    {
      editingGoal := Some(g.id);
      newGoal := GoalDraft(g.goal, g.total, g.category, g.deadline, g.color);
    }

    /** `saveEditedGoal`: with a goal being edited (an id of 0 is falsy) and
        non-blank text, the goal takes the form's fields and the form resets;
        otherwise nothing changes. */
    method SaveEditedGoal()
      modifies this
      ensures var saving := old(editingGoal).Some? && old(editingGoal).value != 0 && !IsBlank(old(newGoal.goal));
        && (saving ==> goals == EditGoal(old(goals), old(editingGoal).value, old(newGoal))
                       && editingGoal == None && newGoal == EmptyDraft)
        && (!saving ==> goals == old(goals) && editingGoal == old(editingGoal) && newGoal == old(newGoal))
      ensures showGoalForm == old(showGoalForm)
    {
      if editingGoal.Some? && editingGoal.value != 0 && !IsBlank(newGoal.goal) {
        goals := EditGoal(goals, editingGoal.value, newGoal);
        editingGoal := None;
        newGoal := EmptyDraft;
      }
    }

    method UpdateProgress(goalId: int, p: int)
      modifies this`goals
      ensures goals == UpdateGoalProgress(old(goals), goalId, p)
    {
      goals := UpdateGoalProgress(goals, goalId, p);
    }

    method Delete(goalId: int)
      modifies this`goals
      ensures goals == DeleteGoal(old(goals), goalId)
    {
      goals := DeleteGoal(goals, goalId);
    }
  }

  /** A goal added through the form starts in range. */
  lemma AddedGoalInRange(draft: GoalDraft, id: int)
    requires draft.total > 0
    ensures InRange(NewGoal(draft, id)) && NewGoal(draft, id).progress == 0
    ensures NewGoal(draft, id).goal != "" <==> !IsBlank(draft.goal)
  {
  }
}
