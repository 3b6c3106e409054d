/**
 * `MovePipeline.exibir_info_pipeline`: read a card's pipeline position,
 * move the card to the stage a stage code names when it is not there yet,
 * and report what was read.
 */
module MovePipeline {
  import opened Wrappers
  import opened PyValues
  import opened Crm

  /** `ETAPAS_STAGE_IDS`: the stage each stage code moves a card to. */
  const STAGE_IDS: map<int, string> := map[
    1 := "DT128_203:UC_XANPBC",
    2 := "DT128_203:PREPARATION",
    3 := "DT128_203:NEW",
    4 := "DT128_203:UC_3UTEIE",
    5 := "DT128_203:CLIENT"
  ]

  /**
   * `ETAPAS_STAGE_IDS.get(etapa)`. A Python dictionary finds an integer key
   * from any equal number, so `True` finds code 1 and `False` finds nothing;
   * a string such as `"1"` finds nothing.
   */
  function StageFor(etapa: Val): (stage: Option<string>)
    ensures stage.Some? <==> Numeric(etapa).Some? && Numeric(etapa).value in STAGE_IDS
    ensures stage.Some? ==> stage.value == STAGE_IDS[Numeric(etapa).value]
  {
    match Numeric(etapa)
    case Some(n) => if n in STAGE_IDS then Some(STAGE_IDS[n]) else None
    case None => None
  }

  /** Only the five codes have a stage, and the stages are the listed ones. */
  lemma StageTableIsExact(etapa: Val)
    ensures StageFor(etapa).Some? <==> Numeric(etapa).Some? && 1 <= Numeric(etapa).value <= 5
    ensures StageFor(VInt(1)) == Some("DT128_203:UC_XANPBC")
    ensures StageFor(VInt(2)) == Some("DT128_203:PREPARATION")
    ensures StageFor(VInt(3)) == Some("DT128_203:NEW")
    ensures StageFor(VInt(4)) == Some("DT128_203:UC_3UTEIE")
    ensures StageFor(VInt(5)) == Some("DT128_203:CLIENT")
    ensures StageFor(VBool(true)) == StageFor(VInt(1)) && StageFor(VBool(false)).None?
    ensures etapa.VStr? || etapa.VNone? ==> StageFor(etapa).None?
  {
  }

  /** No two codes share a stage, so each stage names exactly one code. */
  lemma StagesAreDistinct(m: int, n: int)
    requires m in STAGE_IDS && n in STAGE_IDS && m != n
    ensures STAGE_IDS[m] != STAGE_IDS[n]
  {
    // The five ids differ in length except those of codes 1 and 4.
    if {m, n} == {1, 4} {
      assert STAGE_IDS[1][13] != STAGE_IDS[4][13];
    } else {
      assert |STAGE_IDS[m]| != |STAGE_IDS[n]|;
    }
  }

  /**
   * The stage to move to: the code's stage, when there is one and it is not
   * the stage the card is on.
   */
  function MoveTarget(etapa: Val, stageId: Val): (target: Option<string>)
    ensures target.Some? <==> StageFor(etapa).Some? && !PyEq(VStr(StageFor(etapa).value), stageId)
    ensures target.Some? ==> target == StageFor(etapa)
  {
    match StageFor(etapa)
    case Some(t) => if Truthy(VStr(t)) && !PyEq(VStr(t), stageId) then Some(t) else None
    case None => None
  }

  /** The returned record. */
  datatype PipelineInfo = PipelineInfo(etapa: Val, contactId: Val, cardId: Val, categoryId: Val, stageId: Val)

  /** The record returned, or an exception that escapes the function. */
  datatype PipelineResult = Reported(info: PipelineInfo) | Raised

  /** A result together with the CRM calls issued to reach it, in order. */
  datatype PipelineRun = PipelineRun(result: PipelineResult, calls: seq<Call>)

  /**
   * The card's fields decode to JSON that is not an object, so `.get` raises
   * an `AttributeError`, which the `except json.JSONDecodeError` does not catch.
   */
  predicate FieldsRaise(cardId: Val, r: Replies) {
    Truthy(cardId) && r.cardFields.NotObject?
  }

  /** The card's fields as read: none without a card id or when the text is not JSON. */
  function ReadFields(cardId: Val, r: Replies): (fields: CardFields)
    ensures fields != map[] ==> Truthy(cardId) && r.cardFields.Decoded?
    ensures Truthy(cardId) && r.cardFields.Decoded? ==> fields == r.cardFields.fields
  {
    if Truthy(cardId) && r.cardFields.Decoded? then r.cardFields.fields else map[]
  }

  /** `exibir_info_pipeline` as a value, continuing the trace `t` of earlier calls. */
  function PipelineAfter(etapa: Val, contactId: Val, cardId: Val, r: Replies, t: seq<Call>): (run: PipelineRun)
    ensures run.result.Raised? <==> FieldsRaise(cardId, r)
    ensures |t| <= |run.calls| <= |t| + 2 && run.calls[..|t|] == t
    ensures Truthy(cardId) ==> |run.calls| > |t| && run.calls[|t|] == FieldsRead(cardId)
    ensures Truthy(cardId) ==> forall c :: c in run.calls[|t| + 1..] ==> c.StageMove?
    ensures !Truthy(cardId) ==> forall c :: c in run.calls[|t|..] ==> c.StageMove?
    ensures forall c :: c in run.calls[|t|..] ==>
      c == FieldsRead(cardId) || (StageFor(etapa).Some? && c == StageMove(StageFor(etapa).value, cardId))
    ensures run.result.Reported? ==> run.result.info.etapa == etapa && run.result.info.cardId == cardId
  {
    var read := if Truthy(cardId) then t + [FieldsRead(cardId)] else t;
    if FieldsRaise(cardId, r) then PipelineRun(Raised, read)
    else
      var fields := ReadFields(cardId, r);
      var stageId := Get(fields, StageId);
      var result := Reported(PipelineInfo(etapa, contactId, cardId, Get(fields, CategoryId), stageId));
      match MoveTarget(etapa, stageId)
      case Some(target) => PipelineRun(result, read + [StageMove(target, cardId)])
      case None => PipelineRun(result, read)
  }

  /** `exibir_info_pipeline` on its own: the calls it issues from an empty trace. */
  function Pipeline(etapa: Val, contactId: Val, cardId: Val, r: Replies): (run: PipelineRun)
    ensures run.result.Raised? ==> run.calls == [FieldsRead(cardId)]
    ensures |run.calls| <= 2
  {
    PipelineAfter(etapa, contactId, cardId, r, [])
  }

  /** Earlier calls are kept as they are, and the run's own calls follow them. */
  lemma PipelineAfterExtends(etapa: Val, contactId: Val, cardId: Val, r: Replies, t: seq<Call>)
    ensures PipelineAfter(etapa, contactId, cardId, r, t).result == Pipeline(etapa, contactId, cardId, r).result
    ensures PipelineAfter(etapa, contactId, cardId, r, t).calls == t + Pipeline(etapa, contactId, cardId, r).calls
  {
    var read := if Truthy(cardId) then [FieldsRead(cardId)] else [];
    assert [] + read == read;
    var target := MoveTarget(etapa, Get(ReadFields(cardId, r), StageId));
    if target.Some? {
      AppendAssoc(t, read, [StageMove(target.value, cardId)]);
    }
  }

  /** `exibir_info_pipeline`, step by step against the CRM client. */
  method ExibirInfoPipeline(etapa: Val, contactId: Val, cardId: Val, crm: Client) returns (result: PipelineResult)
    modifies crm
    ensures crm.calls == PipelineAfter(etapa, contactId, cardId, crm.replies, old(crm.calls)).calls
    ensures result == PipelineAfter(etapa, contactId, cardId, crm.replies, old(crm.calls)).result
  {
    var categoryId := VNone;
    var stageId := VNone;
    if Truthy(cardId) {
      var cardInfo := crm.ReadCardFields(cardId);
      match cardInfo
      case NotJson =>
        // the decode error is logged and both stay None
      case NotObject =>
        return Raised;  // `.get` on a non-dict raises, and the `except` does not catch it
      case Decoded(fields) =>
        categoryId := Get(fields, CategoryId);
        stageId := Get(fields, StageId);
    }
    var target := StageFor(etapa);
    if target.Some? && Truthy(VStr(target.value)) && !PyEq(VStr(target.value), stageId) {
      var ok := crm.MoveStage(target.value, cardId);  // the result is only logged
    }
    return Reported(PipelineInfo(etapa, contactId, cardId, categoryId, stageId));
  }

  // ---------------------------------------------------------------------------
  // Properties

  /**
   * A move is sent exactly when the fields do not raise and the code has a
   * stage other than the one read, to that stage and for the given card id,
   * and never more than once.
   */
  lemma {:induction false} MoveOnlyWhenStageDiffers(etapa: Val, contactId: Val, cardId: Val, r: Replies)
    ensures var calls := Pipeline(etapa, contactId, cardId, r).calls;
      var target := StageFor(etapa);
      && Filter(calls, IsMove)
         == (if !FieldsRaise(cardId, r) && target.Some?
                && !PyEq(VStr(target.value), Get(ReadFields(cardId, r), StageId))
             then [StageMove(target.value, cardId)] else [])
      && |Filter(calls, IsMove)| <= 1
    ensures forall c :: c in Pipeline(etapa, contactId, cardId, r).calls && IsMove(c) ==>
      StageFor(etapa).Some? && c == StageMove(StageFor(etapa).value, cardId)
  {
    FilterMembers(Pipeline(etapa, contactId, cardId, r).calls, IsMove);
    var read := if Truthy(cardId) then [] + [FieldsRead(cardId)] else [];
    FilterSnoc([], FieldsRead(cardId), IsMove);
    assert Filter(read, IsMove) == [];
    var target := MoveTarget(etapa, Get(ReadFields(cardId, r), StageId));
    if target.Some? {
      FilterSnoc(read, StageMove(target.value, cardId), IsMove);
    }
  }

  /**
   * A card already on the code's stage is not moved; a card on the stage of
   * another code is moved to this code's stage.
   */
  lemma MoveSkippedOnSameStage(etapa: int, current: int, contactId: Val, cardId: Val, r: Replies)
    requires etapa in STAGE_IDS && current in STAGE_IDS
    requires Truthy(cardId) && r.cardFields.Decoded?
    requires Get(r.cardFields.fields, StageId) == VStr(STAGE_IDS[current])
    ensures var calls := Pipeline(VInt(etapa), contactId, cardId, r).calls;
      && (etapa == current ==> calls == [FieldsRead(cardId)])
      && (etapa != current ==> calls == [FieldsRead(cardId), StageMove(STAGE_IDS[etapa], cardId)])
  {
    if etapa != current {
      StagesAreDistinct(etapa, current);
    }
  }

  /** The two cases the stage table is meant for: code 3 on the NEW stage stays, code 1 moves. */
  lemma NewStageExamples(contactId: Val, cardId: Val, r: Replies)
    requires Truthy(cardId) && r.cardFields.Decoded?
    requires Get(r.cardFields.fields, StageId) == VStr("DT128_203:NEW")
    ensures && Pipeline(VInt(3), contactId, cardId, r).calls == [FieldsRead(cardId)]
      && Pipeline(VInt(1), contactId, cardId, r).calls
         == [FieldsRead(cardId), StageMove("DT128_203:UC_XANPBC", cardId)]
  {
    MoveSkippedOnSameStage(3, 3, contactId, cardId, r);
    MoveSkippedOnSameStage(1, 3, contactId, cardId, r);
  }

  /**
   * Without a card id nothing is read and both fields stay None; a move to
   * the code's stage is still sent, since no stage equals None.
   */
  lemma NoCardIdStillMoves(etapa: Val, contactId: Val, cardId: Val, r: Replies)
    requires !Truthy(cardId)
    ensures var run := Pipeline(etapa, contactId, cardId, r);
      && run.result.Reported?
      && run.result.info.categoryId == VNone && run.result.info.stageId == VNone
      && run.calls == (if StageFor(etapa).Some? then [StageMove(StageFor(etapa).value, cardId)] else [])
  {
  }

  /** Card fields that are not JSON leave both fields None and do not stop the move. */
  lemma MalformedFieldsAreNotFatal(etapa: Val, contactId: Val, cardId: Val, r: Replies)
    requires Truthy(cardId) && r.cardFields.NotJson?
    ensures var run := Pipeline(etapa, contactId, cardId, r);
      && run.result.Reported?
      && run.result.info.categoryId == VNone && run.result.info.stageId == VNone
      && run.calls == [FieldsRead(cardId)]
         + (if StageFor(etapa).Some? then [StageMove(StageFor(etapa).value, cardId)] else [])
  {
  }

  /** Card fields that are JSON but not an object raise after the read, before any move. */
  lemma NonObjectFieldsRaise(etapa: Val, contactId: Val, cardId: Val, r: Replies)
    requires Truthy(cardId) && r.cardFields.NotObject?
    ensures Pipeline(etapa, contactId, cardId, r).result == Raised
    ensures Pipeline(etapa, contactId, cardId, r).calls == [FieldsRead(cardId)]
  {
  }

  /**
   * The record echoes the inputs and holds the position read before any
   * move, whatever the move's reply; only fields that are not an object raise.
   */
  lemma ResultReportsStageBeforeMove(etapa: Val, contactId: Val, cardId: Val, r: Replies, ok: bool)
    ensures var result := Pipeline(etapa, contactId, cardId, r).result;
      && (result.Raised? <==> FieldsRaise(cardId, r))
      && (result.Reported? ==>
            var info := result.info;
            && info.etapa == etapa && info.contactId == contactId && info.cardId == cardId
            && info.categoryId == (if Truthy(cardId) && r.cardFields.Decoded?
                                   then Get(r.cardFields.fields, CategoryId) else VNone)
            && info.stageId == (if Truthy(cardId) && r.cardFields.Decoded?
                                then Get(r.cardFields.fields, StageId) else VNone))
    ensures Pipeline(etapa, contactId, cardId, r.(moveOk := ok)) == Pipeline(etapa, contactId, cardId, r)
  {
  }
}
