/**
 * The day-planner page: the plans of the viewed day, the draft being edited in
 * the modal, and the save, delete and fetch operations against the backend.
 * The backend is a collaborator: each operation returns the requests it sends
 * and takes the way they settle as parameters.
 */
module Planner {
  import opened Options
  import opened JsStrings
  import opened Sequences
  import opened TimeGrid

  datatype PlanType = Trading | Learning | Exercise | Personal | Other

  /** A plan as the backend stores it: times are `HH:MM` strings, `date` is the day key. */
  datatype Plan = Plan(
    id: string,
    title: string,
    planType: PlanType,
    startTime: string,
    endTime: string,
    notes: Option<string>,
    date: string)

  /** The plan being edited: any property may still be missing. */
  datatype Draft = Draft(
    id: Option<string>,
    title: Option<string>,
    planType: Option<PlanType>,
    startTime: Option<string>,
    endTime: Option<string>,
    notes: Option<string>)

  const EmptyDraft := Draft(None, None, None, None, None, None)

  /** JavaScript truthiness of an optional string: present and not empty. */
  predicate Filled(o: Option<string>) {
    o.Some? && o.value != ""
  }

  /** All properties the save checks are present. */
  predicate Complete(d: Draft) {
    Filled(d.title) && Filled(d.startTime) && Filled(d.endTime) && d.planType.Some?
  }

  datatype SaveError = MissingField | InvalidTime

  datatype Request =
    | Get(path: string, date: string)
    | Post(path: string, body: Plan)
    | Put(path: string, body: Plan)
    | Delete(path: string)

  /** The route of one plan. */
  function PlanPath(id: string): string {
    "/plans/" + id
  }

  /** The draft the "Add Plan" button opens. */
  function AddTemplate(): Draft {
    Draft(None, None, Some(Trading), Some("09:00"), Some("10:00"), None)
  }

  /** The draft a click at offset `y` on the day canvas opens. */
  function ClickDraft(y: int): Draft {
    var (start, end) := ClickTimes(y);
    Draft(None, None, Some(Trading), Some(start), Some(end), None)
  }

  /** The draft that clicking an existing block opens. */
  function EditDraft(p: Plan): Draft {
    Draft(Some(p.id), Some(p.title), Some(p.planType), Some(p.startTime), Some(p.endTime), p.notes)
  }

  /**
   * What saving the draft sends: nothing when a property is missing or the
   * start is not before the end as strings; otherwise the plan stamped with
   * the viewed day, sent as an update when it has an id and as a creation
   * under a fresh id when it has none.
   */
  function SaveRequest(d: Draft, dateKey: string, freshId: string): (r: Result<Request, SaveError>)
    ensures r == Failure(MissingField) <==> !Complete(d)
    ensures r == Failure(InvalidTime) <==> Complete(d) && !StrLess(d.startTime.value, d.endTime.value)
    ensures r.Success? ==> r.value.Post? || r.value.Put?
    ensures r.Success? ==>
      var b := r.value.body;
      && b.date == dateKey && Some(b.title) == d.title && Some(b.planType) == d.planType
      && Some(b.startTime) == d.startTime && Some(b.endTime) == d.endTime && b.notes == d.notes
      && StrLess(b.startTime, b.endTime)
    ensures r.Success? && Filled(d.id) ==> r.value == Put(PlanPath(d.id.value), r.value.body) && r.value.body.id == d.id.value
    ensures r.Success? && !Filled(d.id) ==> r.value == Post("/plans", r.value.body) && r.value.body.id == freshId
  {
    if !Complete(d) then Failure(MissingField)
    else if !StrLess(d.startTime.value, d.endTime.value) then Failure(InvalidTime)
    else
      var id := if Filled(d.id) then d.id.value else freshId;
      var body := Plan(id, d.title.value, d.planType.value, d.startTime.value, d.endTime.value, d.notes, dateKey);
      if Filled(d.id) then Success(Put(PlanPath(id), body)) else Success(Post("/plans", body))
  }

  datatype FetchOutcome = Answered(status: int, data: seq<Plan>) | Threw

  /** The day's list after a fetch: replaced only by a response with status 200. */
  function AfterFetch(plans: seq<Plan>, r: FetchOutcome): (p: seq<Plan>)
    ensures r.Answered? && r.status == 200 ==> p == r.data
    ensures r.Threw? || r.status != 200 ==> p == plans
  {
    if r.Answered? && r.status == 200 then r.data else plans
  }

  /** Where a block is drawn: its top offset and its height. */
  function BlockLayout(p: Plan): (Number, Number) {
    (Position(p.startTime), Height(p.startTime, p.endTime))
  }

  /** How many of the day's plans have type `t` (the summary panel). */
  function TypeCount(plans: seq<Plan>, t: PlanType): nat {
    |Filter(plans, (p: Plan) => p.planType == t)|
  }

  class PlannerPage {
    /** The viewed day, `yyyy-MM-dd`. */
    var dateKey: string
    /** The plans of the viewed day, as last fetched. */
    var plans: seq<Plan>
    /** The draft in the add/edit modal. */
    var current: Draft
    var isOpen: bool

    constructor (dateKey: string)
      ensures this.dateKey == dateKey && plans == [] && current == EmptyDraft && !isOpen
    {
      this.dateKey := dateKey;
      plans := [];
      current := EmptyDraft;
      isOpen := false;
    }

    /**
     * The first render: the effect keyed on the day key runs once on mount, so a
     * new page asks for its starting day and takes the list only from a 200.
     */
    method Mount(r: FetchOutcome) returns (req: Request)
      requires plans == []
      modifies this`plans
      ensures req == Get("/plans", dateKey)
      ensures plans == AfterFetch([], r)
      ensures r.Answered? && r.status == 200 ==> plans == r.data
      ensures r.Threw? || r.status != 200 ==> plans == []
    {
      req := FetchPlans(r);
    }

    /** `fetchPlans`: asks for the viewed day and keeps the old list unless the answer is a 200. */
    method FetchPlans(r: FetchOutcome) returns (req: Request)
      modifies this`plans
      ensures req == Get("/plans", dateKey)
      ensures plans == AfterFetch(old(plans), r)
    {
      req := Get("/plans", dateKey);
      if r.Answered? && r.status == 200 {
        plans := r.data;
      }
    }

    /**
     * `handleSave`: a rejected draft sends nothing and changes nothing; an
     * accepted one is sent, the modal closes and the draft is cleared, and
     * when the request succeeds the day is fetched again.
     */
    method HandleSave(freshId: string, savedOk: bool, refetch: FetchOutcome) returns (sent: seq<Request>)
      modifies this`plans, this`current, this`isOpen
      ensures SaveRequest(old(current), dateKey, freshId).Failure? ==>
        sent == [] && plans == old(plans) && current == old(current) && isOpen == old(isOpen)
      ensures SaveRequest(old(current), dateKey, freshId).Success? ==>
        && sent == [SaveRequest(old(current), dateKey, freshId).value] + (if savedOk then [Get("/plans", dateKey)] else [])
        && plans == (if savedOk then AfterFetch(old(plans), refetch) else old(plans))
        && current == EmptyDraft && !isOpen
    {
      var r := SaveRequest(current, dateKey, freshId);
      if r.Failure? {
        return [];
      }
      sent := [r.value];
      if savedOk {
        var get := FetchPlans(refetch);
        sent := sent + [get];
      }
      isOpen := false;
      current := EmptyDraft;
    }

    /** `handleDelete`: sends the delete and fetches the day again when it succeeds. */
    method HandleDelete(id: string, deletedOk: bool, refetch: FetchOutcome) returns (sent: seq<Request>)
      modifies this`plans
      ensures sent == [Delete(PlanPath(id))] + (if deletedOk then [Get("/plans", dateKey)] else [])
      ensures plans == (if deletedOk then AfterFetch(old(plans), refetch) else old(plans))
    {
      sent := [Delete(PlanPath(id))];
      if deletedOk {
        var get := FetchPlans(refetch);
        sent := sent + [get];
      }
    }

    /** `openAdd`. */
    method OpenAdd()
      modifies this`current, this`isOpen
      ensures current == AddTemplate() && isOpen
    {
      current := AddTemplate();
      isOpen := true;
    }

    /** `openEdit`. */
    method OpenEdit(p: Plan)
      modifies this`current, this`isOpen
      ensures current == EditDraft(p) && isOpen
    {
      current := EditDraft(p);
      isOpen := true;
    }

    /** `handleTimelineClick` at offset `y` from the canvas top. */
    method TimelineClick(y: int)
      modifies this`current, this`isOpen
      ensures current == ClickDraft(y) && isOpen
    {
      current := ClickDraft(y);
      isOpen := true;
    }

    /** Choosing a day: the list is fetched again only when the day key changes. */
    method SelectDate(key: string, r: FetchOutcome) returns (sent: seq<Request>)
      modifies this`dateKey, this`plans
      ensures key == old(dateKey) ==> sent == [] && dateKey == old(dateKey) && plans == old(plans)
      ensures key != old(dateKey) ==>
        sent == [Get("/plans", key)] && dateKey == key && plans == AfterFetch(old(plans), r)
    {
      if key == dateKey {
        return [];
      }
      dateKey := key;
      var get := FetchPlans(r);
      sent := [get];
    }

    /** The blocks drawn for the day, one per plan, in list order. */
    function Layout(): (blocks: seq<(Number, Number)>)
      reads this
      ensures |blocks| == |plans|
      ensures forall i :: 0 <= i < |plans| ==> blocks[i] == BlockLayout(plans[i])
    {
      Map(plans, BlockLayout)
    }
  }

  // ---------------------------------------------------------------- lemmas

  /** A click draft is refused until a title is typed, and then it is created, never updated. */
  lemma ClickDraftSave(y: int, title: string, dateKey: string, freshId: string)
    ensures SaveRequest(ClickDraft(y), dateKey, freshId) == Failure(MissingField)
    ensures title != "" ==>
      SaveRequest(ClickDraft(y).(title := Some(title)), dateKey, freshId)
      == Success(Post("/plans", Plan(freshId, title, Trading, ClickTimes(y).0, ClickTimes(y).1, None, dateKey)))
  {
    ClickTimesOrdered(y);
  }

  /** The "Add Plan" template, once titled, is created as 09:00 to 10:00. */
  lemma AddTemplateSave(title: string, dateKey: string, freshId: string)
    requires title != ""
    ensures SaveRequest(AddTemplate().(title := Some(title)), dateKey, freshId)
      == Success(Post("/plans", Plan(freshId, title, Trading, "09:00", "10:00", None, dateKey)))
  {
    FormatTimeShape(9, 0);
    FormatTimeShape(10, 0);
    FormatOrder(9, 0, 10, 0);
  }

  /** Saving an existing plan unchanged sends it back as an update, stamped with the viewed day. */
  lemma EditDraftSave(p: Plan, dateKey: string, freshId: string)
    requires p.id != "" && p.title != "" && p.startTime != ""
    requires StrLess(p.startTime, p.endTime)
    ensures SaveRequest(EditDraft(p), dateKey, freshId) == Success(Put(PlanPath(p.id), p.(date := dateKey)))
  {
  }

  /**
   * For `HH:MM` times the save's string check is exactly the minute order:
   * a draft is accepted if and only if its start minute is before its end minute.
   */
  lemma TimeCheckIsMinuteOrder(d: Draft, dateKey: string, freshId: string, h1: nat, m1: nat, h2: nat, m2: nat)
    requires h1 < 24 && h2 < 24 && m1 < 60 && m2 < 60
    requires Filled(d.title) && d.planType.Some?
    requires d.startTime == Some(FormatTime(h1, m1)) && d.endTime == Some(FormatTime(h2, m2))
    ensures SaveRequest(d, dateKey, freshId).Success? <==> h1 * 60 + m1 < h2 * 60 + m2
  {
    FormatTimeShape(h1, m1);
    FormatTimeShape(h2, m2);
    FormatOrder(h1, m1, h2, m2);
  }

  /** An accepted plan with `HH:MM` times is drawn inside the day, with a positive height. */
  lemma AcceptedBlockLayout(p: Plan, h1: nat, m1: nat, h2: nat, m2: nat)
    requires h1 < 24 && h2 < 24 && m1 < 60 && m2 < 60
    requires p.startTime == FormatTime(h1, m1) && p.endTime == FormatTime(h2, m2)
    requires StrLess(p.startTime, p.endTime)
    ensures BlockLayout(p).0 == Num(h1 * 60 + m1) && 0 <= BlockLayout(p).0.value <= LastMinute
    ensures BlockLayout(p).1.Num? && 0 < BlockLayout(p).1.value
    ensures BlockLayout(p).0.value + BlockLayout(p).1.value == h2 * 60 + m2
  {
    FormatOrder(h1, m1, h2, m2);
    FormatPositionRoundTrip(h1, m1);
    HeightOfFormatted(h1, m1, h2, m2);
  }

  /** The summary panel's per-type counts add up to the number of plans of the day. */
  lemma {:induction false} TypeCountsSum(plans: seq<Plan>)
    ensures TypeCount(plans, Trading) + TypeCount(plans, Learning) + TypeCount(plans, Exercise)
      + TypeCount(plans, Personal) + TypeCount(plans, Other) == |plans|
  {
    if plans != [] {
      TypeCountsSum(plans[1..]);
    }
  }
}
