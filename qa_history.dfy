/** The history panel: the newest-first list of past exchanges, each row
    collapsed to a summary or expanded to the full question and answer. The
    panel's only own state is the set of expanded item ids. */
module QAHistory {
  import opened Common

  /** `expanded` with the membership of `id` flipped. */
  function Toggled(expanded: set<string>, id: string): (r: set<string>)
    ensures id in r <==> id !in expanded
    ensures forall x :: x != id ==> (x in r <==> x in expanded)
  {
    if id in expanded then expanded - {id} else expanded + {id}
  }

  /** Toggling the same id twice restores the set. */
  lemma ToggleTwice(expanded: set<string>, id: string)
    ensures Toggled(Toggled(expanded, id), id) == expanded
  {
  }

  /** The full question and answer of an expanded row. */
  datatype Detail = Detail(question: string, answer: string)

  /** One rendered row: the summary button (thumbnail, question, timestamp,
      the answer only while collapsed, the chevron direction) and the detail
      block (only while expanded). */
  datatype Row = Row(
    id: string, image: string, question: string, timestamp: nat,
    summaryAnswer: Option<string>, chevronUp: bool, detail: Option<Detail>)

  /** The rendered panel: the count in the title and the rows. */
  datatype Panel = Panel(count: nat, rows: seq<Row>)

  /** How one item is rendered given the expanded set: collapsed rows show
      the answer in the summary, expanded rows show it in the detail block
      instead, never both. */
  function RenderRow(item: QAItem, expanded: set<string>): (r: Row)
    ensures r.id == item.id && r.image == item.image
    ensures r.question == item.question && r.timestamp == item.timestamp
    ensures r.chevronUp <==> item.id in expanded
    ensures r.detail.Some? <==> item.id in expanded
    ensures r.detail.Some? ==> r.detail.value == Detail(item.question, item.answer)
    ensures r.summaryAnswer.Some? <==> r.detail.None?
    ensures r.summaryAnswer.Some? ==> r.summaryAnswer.value == item.answer
  {
    var isExpanded := item.id in expanded;
    Row(item.id, item.image, item.question, item.timestamp,
        if isExpanded then None else Some(item.answer),
        isExpanded,
        if isExpanded then Some(Detail(item.question, item.answer)) else None)
  }

  /** The panel, or None when the component returns null. */
  function Render(history: seq<QAItem>, expanded: set<string>): (r: Option<Panel>)
    ensures r.None? <==> history == []
    ensures r.Some? ==> r.value.count == |history| && |r.value.rows| == |history|
    ensures r.Some? ==> forall i :: 0 <= i < |history| ==> r.value.rows[i] == RenderRow(history[i], expanded)
  {
    if |history| == 0 then None
    else Some(Panel(|history|, seq(|history|, i requires 0 <= i < |history| => RenderRow(history[i], expanded))))
  }

  /** Clicking a row changes only the rows whose item has that id: they
      switch between collapsed and expanded, and every other row renders as
      before. Ids come from a millisecond clock and may repeat, in which case
      all rows sharing the id switch together. */
  lemma ToggleSwitchesOnlyThatId(history: seq<QAItem>, expanded: set<string>, id: string)
    requires history != []
    ensures var before := Render(history, expanded).value.rows;
      var after := Render(history, Toggled(expanded, id)).value.rows;
      forall i :: 0 <= i < |history| ==>
        if history[i].id == id then (after[i].detail.Some? <==> before[i].detail.None?)
        else after[i] == before[i]
  {
  }

  /** The component: React state holding the expanded ids. */
  class QAHistory {
    var expandedItems: set<string>

    constructor ()
      ensures expandedItems == {}
    {
      expandedItems := {};
    }

    /** Copies the set, deletes or adds `id` in the copy, stores the copy. */
    method ToggleExpanded(id: string)
      modifies this
      ensures expandedItems == Toggled(old(expandedItems), id)
    {
      var newExpanded := expandedItems;
      if id in newExpanded {
        newExpanded := newExpanded - {id};
      } else {
        newExpanded := newExpanded + {id};
      }
      expandedItems := newExpanded;
    }
  }
}
