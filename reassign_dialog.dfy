/** The reassign dialog of `src/components/categories/ReassignDialog.jsx`:
    the target category chosen for the transactions of a category being
    deleted, the error shown when none is, when Reassign is disabled, and
    what the dialog shows. */
module ReassignDialog {
  import opened Text
  import opened Domain

  const SelectTargetMessage: string := "Please select a target category"

  /** What the dialog shows about its source category and candidates. */
  datatype Prompt = Prompt(
    sourceName: string, count: Option<int>, noun: string,
    helperText: string, emptyNotice: Option<string>, options: seq<(int, string, int)>)

  /** One option: the candidate's identifier, its name and its count of
      transactions, `transaction_count || 0`. */
  function OptionOf(c: Category): (r: (int, string, int))
    ensures r.0 == c.id && r.1 == c.name
    ensures r.2 == (if c.transactionCount.Some? then c.transactionCount.value else 0)
  {
    (c.id, c.name, CountOrZero(c.transactionCount))
  }

  /** The options, one per candidate in order. */
  function OptionsOf(candidates: seq<Category>): (r: seq<(int, string, int)>)
    ensures |r| == |candidates|
    ensures forall i :: 0 <= i < |r| ==> r[i] == OptionOf(candidates[i])
  {
    if candidates == [] then [] else [OptionOf(candidates[0])] + OptionsOf(candidates[1..])
  }

  /** The dialog renders nothing without a source category; with one it
      names the source and its count, `transaction` for exactly one,
      asks for a category of the source's type, and lists the candidates
      or says there are none. */
  function Render(source: Option<Category>, candidates: seq<Category>): (r: Option<Prompt>)
    ensures r.None? <==> source.None?
    ensures r.Some? ==> r.value.sourceName == source.value.name && r.value.count == source.value.transactionCount
    ensures r.Some? ==> (r.value.noun == "transaction" <==> source.value.transactionCount == Some(1))
    ensures r.Some? ==> r.value.helperText == "Choose a " + source.value.ctype + " category to move all transactions to"
    ensures r.Some? ==> (r.value.emptyNotice.Some? <==> candidates == [])
    ensures r.Some? && candidates == [] ==>
      r.value.emptyNotice == Some("No other " + source.value.ctype + " categories available")
    ensures r.Some? ==> r.value.options == OptionsOf(candidates)
  {
    match source
    case None => None
    case Some(s) =>
      Some(Prompt(
        s.name, s.transactionCount,
        if s.transactionCount != Some(1) then "transactions" else "transaction",
        "Choose a " + s.ctype + " category to move all transactions to",
        if |candidates| == 0 then Some("No other " + s.ctype + " categories available") else None,
        OptionsOf(candidates)))
  }

  class ReassignDialog {
    /** `targetCategoryId`: `None` is the empty selection `''`. */
    var targetCategoryId: Option<int>
    var error: string

    constructor ()
      ensures targetCategoryId.None? && error == ""
    {
      targetCategoryId := None;
      error := "";
    }

    /** Reassign is disabled while no target is chosen or when there is no
        candidate at all. */
    predicate SubmitDisabled(candidates: seq<Category>)
      reads this
    {
      targetCategoryId.None? || |candidates| == 0
    }

    /** Choosing a target stores it and clears the error. */
    method Choose(id: int)
      modifies this
      ensures targetCategoryId == Some(id) && error == ""
      ensures forall candidates: seq<Category> :: SubmitDisabled(candidates) <==> candidates == []
    {
      targetCategoryId := Some(id);
      error := "";
    }

    /** `handleSubmit`: with no target, the error is set and nothing is
        submitted; otherwise the target is submitted and the dialog reset.
        An enabled button always submits. */
    method HandleSubmit(ghost candidates: seq<Category>) returns (submitted: Option<int>)
      modifies this
      ensures submitted.None? <==> old(targetCategoryId).None?
      ensures !old(SubmitDisabled(candidates)) ==> submitted.Some?
      ensures submitted.None? ==> targetCategoryId == old(targetCategoryId) && error == SelectTargetMessage
      ensures submitted.Some? ==> submitted == old(targetCategoryId) && targetCategoryId.None? && error == ""
    {
      if targetCategoryId.None? {
        error := SelectTargetMessage;
        return None;
      }
      submitted := targetCategoryId;
      targetCategoryId := None;
      error := "";
    }

    /** `handleClose`: the target and error are reset, then the dialog is
        closed. */
    method HandleClose() returns (closed: bool)
      modifies this
      ensures closed && targetCategoryId.None? && error == ""
      ensures forall candidates: seq<Category> :: SubmitDisabled(candidates)
    {
      targetCategoryId := None;
      error := "";
      closed := true;
    }
  }
}
