/**
 * The webhook data processor of VerifyAndCreateData.py. Given the payload and
 * the CRM's replies it reports an error, enriches the existing card and
 * address of a known contact, or creates a contact, an address and a card.
 *
 * `Process` states the whole decision as a value (the outcome and the calls
 * issued); `ProcessWebhookData` is the step-by-step procedure, proved to issue
 * exactly those calls and return exactly that outcome.
 */
module VerifyAndCreateData {
  import opened Wrappers
  import opened PyValues
  import opened Crm

  /** The payload keys the processor reads; `KeyName` gives each one's JSON name. */
  datatype Key = Cpf | Name | Email | Celular
               | Rua | NumCasa | Cidade | Cep | Estado | Bairro | Complemento
               | NumOab | UfDaOab | Pacote | Etapa

  function KeyName(k: Key): string {
    match k
    case Cpf => "cpf"
    case Name => "name"
    case Email => "email"
    case Celular => "celular"
    case Rua => "rua"
    case NumCasa => "numCasa"
    case Cidade => "cidade"
    case Cep => "CEP"
    case Estado => "estado"
    case Bairro => "bairro"
    case Complemento => "complemento"
    case NumOab => "numOAB"
    case UfDaOab => "UFdaOAB"
    case Pacote => "pacote"
    case Etapa => "etapa"
  }

  /** Distinct keys read distinct JSON names, so the payload map loses nothing. */
  lemma KeyNamesDistinct(j: Key, k: Key)
    requires j != k
    ensures KeyName(j) != KeyName(k)
  {
  }

  /** The webhook payload, restricted to the keys the processor reads. */
  type Payload = map<Key, Val>

  /** A tracked field: its key in the payload and the card field it fills. */
  datatype Tracked = Tracked(key: Key, field: CardField)

  /** The tracked fields, in the order the source visits them. */
  const TRACKED: seq<Tracked> :=
    [Tracked(NumOab, NumOabField), Tracked(UfDaOab, UfOabField), Tracked(Pacote, PacoteField)]

  const CPF_MISSING := "CPF não informado"
  const CONTACT_FAILED := "Falha ao criar contato"

  /** The configured defaults for new cards (read from the environment by the source). */
  datatype Config = Config(cardStageId: Option<string>, cardCategoryId: int, cardAssignedById: int)

  /**
   * The returned record: `{"error": message}`, `{etapa, contact_id, card_id}`,
   * or an exception that escapes the function.
   */
  datatype Outcome = Failed(message: string) | Linked(etapa: Val, contactId: Val, cardId: Val) | Raised

  /** An outcome together with the CRM calls issued to reach it, in order. */
  datatype Run = Run(outcome: Outcome, calls: seq<Call>)

  /**
   * `is_endereco_vazio`: an address line is empty when it is falsy or is a lone
   * comma padded with white space. Calling `.strip()` needs a string, hence the
   * precondition.
   */
  function IsEnderecoVazio(endereco: Val): (vazio: bool)
    requires endereco.VStr? || !Truthy(endereco)
    ensures vazio <==> !Truthy(endereco) || LoneComma(endereco.s)
  {
    if !Truthy(endereco) then true
    else StripIsLoneComma(endereco.s); Strip(endereco.s) == ","
  }

  lemma CommaOnlyAddressesAreEmpty()
    ensures IsEnderecoVazio(VStr(",")) && IsEnderecoVazio(VStr(" , "))
    ensures IsEnderecoVazio(VStr("")) && IsEnderecoVazio(VNone)
  {
    assert LoneComma(",") by {
      assert ","[..0] == [] && ","[1..] == [];
    }
    assert LoneComma(" , ") by {
      assert " , "[..1] == " " && " , "[2..] == " ";
    }
  }

  lemma StreetAddressIsNotEmpty()
    ensures !IsEnderecoVazio(VStr("Rua A, 10"))
  {
    var s := "Rua A, 10";
    assert !LoneComma(s) by {
      forall k | 0 <= k < |s| && s[k] == ','
        ensures !AllSpace(s[..k])
      {
        assert s[..k][0] == 'R';
      }
    }
  }

  // ---------------------------------------------------------------------------
  // Enrichment of an existing card

  /** A tracked field goes into the update when the card lacks it and the payload has it. */
  predicate Eligible(data: Payload, card: CardFields, t: Tracked) {
    !Truthy(Get(card, t.field)) && Truthy(Get(data, t.key))
  }

  /**
   * The update set the loop over the tracked fields builds, as the fold of
   * that loop over `fields`.
   */
  function Pending(data: Payload, card: CardFields, fields: seq<Tracked>): (r: CardFields)
    ensures forall f :: f in r ==>
      exists i :: 0 <= i < |fields| && fields[i].field == f && Eligible(data, card, fields[i])
                  && r[f] == Get(data, fields[i].key)
    decreases |fields|
  {
    if fields == [] then map[]
    else
      Step(Pending(data, card, fields[..|fields| - 1]), data, card, fields[|fields| - 1])
  }

  /** One step of the loop over the tracked fields. */
  function Step(acc: CardFields, data: Payload, card: CardFields, t: Tracked): CardFields {
    if Eligible(data, card, t) then acc[t.field := Get(data, t.key)] else acc
  }

  /** One more tracked field: the fold takes one more step. */
  lemma PendingExtends(data: Payload, card: CardFields, fields: seq<Tracked>, i: nat)
    requires i < |fields|
    ensures Pending(data, card, fields[..i + 1]) == Step(Pending(data, card, fields[..i]), data, card, fields[i])
  {
    assert fields[..i + 1][..i] == fields[..i];
  }

  /** The loop that builds `campos_para_atualizar`. */
  method CollectUpdates(data: Payload, card: CardFields) returns (campos: CardFields)
    ensures campos == Pending(data, card, TRACKED)
  {
    campos := map[];
    for i := 0 to |TRACKED|
      invariant campos == Pending(data, card, TRACKED[..i])
    {
      var t := TRACKED[i];
      PendingExtends(data, card, TRACKED, i);
      if !Truthy(Get(card, t.field)) && Truthy(Get(data, t.key)) {
        campos := campos[t.field := Get(data, t.key)];
      }
    }
    assert TRACKED[..|TRACKED|] == TRACKED;
  }

  lemma {:induction false} PendingUnrolled(data: Payload, card: CardFields)
    ensures Pending(data, card, TRACKED)
         == Step(Step(Step(map[], data, card, TRACKED[0]), data, card, TRACKED[1]), data, card, TRACKED[2])
  {
    assert TRACKED[..2] == [TRACKED[0], TRACKED[1]];
    assert TRACKED[..2][..1] == [TRACKED[0]];
    assert [TRACKED[0]][..0] == [];
  }

  lemma UpdateSetFillsOnlyEmptyFields(data: Payload, card: CardFields)
    ensures var pending := Pending(data, card, TRACKED);
      && pending.Keys <= {NumOabField, UfOabField, PacoteField}
      && (forall t :: t in TRACKED ==>
            (t.field in pending <==> !Truthy(Get(card, t.field)) && Truthy(Get(data, t.key))))
      && (forall t :: t in TRACKED && t.field in pending ==> pending[t.field] == Get(data, t.key))
      && (forall f :: f in pending ==> !Truthy(Get(card, f)))
  {
    PendingUnrolled(data, card);
    var pending := Pending(data, card, TRACKED);
    var m0 := Step(map[], data, card, TRACKED[0]);
    var m1 := Step(m0, data, card, TRACKED[1]);
    assert m0.Keys <= {NumOabField};
    assert m1.Keys <= {NumOabField, UfOabField};
    forall t | t in TRACKED
      ensures t.field in pending <==> !Truthy(Get(card, t.field)) && Truthy(Get(data, t.key))
      ensures t.field in pending ==> pending[t.field] == Get(data, t.key)
    {
      assert t == TRACKED[0] || t == TRACKED[1] || t == TRACKED[2];
    }
  }

  /** The index of the first option whose `VALUE` equals `wanted`, if any. */
  function FirstMatch(items: seq<EnumItem>, wanted: Val): (r: Option<nat>)
    ensures r.Some? ==> r.value < |items| && PyEq(items[r.value].value, wanted)
    ensures r.Some? ==> forall j :: 0 <= j < r.value ==> !PyEq(items[j].value, wanted)
    ensures r.None? ==> forall j :: 0 <= j < |items| ==> !PyEq(items[j].value, wanted)
  {
    if items == [] then None
    else if PyEq(items[0].value, wanted) then Some(0)
    else match FirstMatch(items[1..], wanted)
      case Some(i) => Some(i + 1)
      case None => None
  }

  /**
   * `target` with the bar-association state set to the `ID` of the first
   * option matching `wanted`; unchanged when there is no option list or no
   * option matches.
   */
  function WithStateId(target: CardFields, options: Option<seq<EnumItem>>, wanted: Val): (r: CardFields)
    ensures r - {UfOabField} == target - {UfOabField}
    ensures UfOabField in r ==> UfOabField in target || options.Some?
  {
    match options
    case None => target
    case Some(items) =>
      match FirstMatch(items, wanted)
      case Some(i) => target[UfOabField := items[i].id]
      case None => target
  }

  /** The `for item in items: ... break` scan over the state options. */
  method AssignFirstMatch(target: CardFields, items: seq<EnumItem>, wanted: Val) returns (updated: CardFields)
    ensures updated == WithStateId(target, Some(items), wanted)
  {
    updated := target;
    for i := 0 to |items|
      invariant updated == target
      invariant forall j :: 0 <= j < i ==> !PyEq(items[j].value, wanted)
    {
      if PyEq(items[i].value, wanted) {
        updated := updated[UfOabField := items[i].id];
        break;
      }
    }
  }

  /** The fields sent to the card update: the update set with the state resolved. */
  function UpdateFields(data: Payload, card: CardFields, options: Option<seq<EnumItem>>): (r: CardFields)
    ensures r.Keys == Pending(data, card, TRACKED).Keys
  {
    var pending := Pending(data, card, TRACKED);
    if UfOabField in pending then WithStateId(pending, options, Get(data, UfDaOab)) else pending
  }

  lemma UpdateNeverOverwrites(data: Payload, card: CardFields, options: Option<seq<EnumItem>>)
    ensures var fields := UpdateFields(data, card, options);
      && fields.Keys == Pending(data, card, TRACKED).Keys
      && fields.Keys <= {NumOabField, UfOabField, PacoteField}
      && (forall f :: f in fields ==> !Truthy(Get(card, f)))
      && (forall f :: f in fields && f != UfOabField ==> fields[f] == Pending(data, card, TRACKED)[f])
  {
    UpdateSetFillsOnlyEmptyFields(data, card);
  }

  lemma PendingStateIsPayload(data: Payload, card: CardFields)
    requires UfOabField in Pending(data, card, TRACKED)
    ensures Pending(data, card, TRACKED)[UfOabField] == Get(data, UfDaOab)
  {
    UpdateSetFillsOnlyEmptyFields(data, card);
    assert TRACKED[1] in TRACKED;
  }

  lemma StateResolvedToFirstMatch(data: Payload, card: CardFields, options: Option<seq<EnumItem>>)
    requires UfOabField in Pending(data, card, TRACKED)
    ensures var fields := UpdateFields(data, card, options);
      var wanted := Get(data, UfDaOab);
      && (options.None? ==> fields[UfOabField] == wanted)
      && (options.Some? ==>
            var items := options.value;
            && ((forall i :: 0 <= i < |items| ==> !PyEq(items[i].value, wanted)) ==> fields[UfOabField] == wanted)
            && (forall i :: 0 <= i < |items| && PyEq(items[i].value, wanted)
                  && (forall j :: 0 <= j < i ==> !PyEq(items[j].value, wanted))
                  ==> fields[UfOabField] == items[i].id))
  {
    PendingStateIsPayload(data, card);
    var wanted := Get(data, UfDaOab);
    var pending := Pending(data, card, TRACKED);
    assert UpdateFields(data, card, options) == WithStateId(pending, options, wanted);
    WithStateIdPicksFirstMatch(pending, options, wanted);
  }

  /** The state is set to the `ID` of the first matching option, or left as it was. */
  lemma WithStateIdPicksFirstMatch(target: CardFields, options: Option<seq<EnumItem>>, wanted: Val)
    requires UfOabField in target
    ensures var r := WithStateId(target, options, wanted);
      && (options.None? ==> r[UfOabField] == target[UfOabField])
      && (options.Some? ==>
            var items := options.value;
            && ((forall i :: 0 <= i < |items| ==> !PyEq(items[i].value, wanted)) ==> r[UfOabField] == target[UfOabField])
            && (forall i :: 0 <= i < |items| && PyEq(items[i].value, wanted)
                  && (forall j :: 0 <= j < i ==> !PyEq(items[j].value, wanted))
                  ==> r[UfOabField] == items[i].id))
  {
    if options.Some? {
      var m := FirstMatch(options.value, wanted);
      forall i | 0 <= i < |options.value| && PyEq(options.value[i].value, wanted)
          && (forall j :: 0 <= j < i ==> !PyEq(options.value[j].value, wanted))
        ensures m == Some(i)
      {
      }
    }
  }

  // ---------------------------------------------------------------------------
  // Addresses and new records

  /** The address built from the payload, a missing key giving `""`. */
  function AddressFrom(data: Payload): (a: Address)
    ensures Rua in data ==> a.rua == data[Rua]
    ensures NumCasa in data ==> a.numero == data[NumCasa]
    ensures Cidade in data ==> a.cidade == data[Cidade]
    ensures Cep in data ==> a.cep == data[Cep]
    ensures Estado in data ==> a.estado == data[Estado]
    ensures Bairro in data ==> a.bairro == data[Bairro]
    ensures Complemento in data ==> a.complemento == data[Complemento]
  {
    Address(GetOr(data, Rua, VStr("")), GetOr(data, NumCasa, VStr("")),
            GetOr(data, Cidade, VStr("")), GetOr(data, Cep, VStr("")),
            GetOr(data, Estado, VStr("")), GetOr(data, Bairro, VStr("")),
            GetOr(data, Complemento, VStr("")))
  }

  lemma MissingAddressFieldsAreEmpty(data: Payload)
    ensures var a := AddressFrom(data);
      && (Rua !in data ==> a.rua == VStr("")) && (NumCasa !in data ==> a.numero == VStr(""))
      && (Cidade !in data ==> a.cidade == VStr("")) && (Cep !in data ==> a.cep == VStr(""))
      && (Estado !in data ==> a.estado == VStr("")) && (Bairro !in data ==> a.bairro == VStr(""))
      && (Complemento !in data ==> a.complemento == VStr(""))
  {
  }

  /** The contact built from the payload. */
  function ContactFrom(data: Payload): (c: ContactData)
    ensures c.cpf == Get(data, Cpf)
    ensures Name in data ==> c.name == data[Name]
    ensures Email in data ==> c.email == data[Email]
    ensures Celular in data ==> c.celular == data[Celular]
    ensures Name !in data ==> c.name == VStr("")
    ensures Email !in data ==> c.email == VStr("")
    ensures Celular !in data ==> c.celular == VStr("")
  {
    ContactData(Get(data, Cpf), GetOr(data, Name, VStr("")),
                GetOr(data, Email, VStr("")), GetOr(data, Celular, VStr("")))
  }

  /** `endereco_atual.get("ADDRESS_1", "")`. */
  function PrimaryLine(line: Option<Val>): Val {
    if line.Some? then line.value else VStr("")
  }

  /**
   * The address test: Some(true) to create an address, Some(false) to keep the
   * current one, None when `.strip()` meets a non-string and raises.
   */
  function AddressDecision(address: AddressReply): (d: Option<bool>)
    ensures address.NoAddress? ==> d == Some(true)
    ensures d.None? <==> !AddressReadable(address)
  {
    match address
    case NoAddress => Some(true)
    case AddressRecord(line) =>
      var l := PrimaryLine(line);
      if l.VStr? || !Truthy(l) then Some(IsEnderecoVazio(l)) else None
  }

  /** The contact has no usable address: none, or a primary line that is empty or a lone comma. */
  predicate LacksAddress(address: AddressReply) {
    || address.NoAddress?
    || !Truthy(PrimaryLine(address.line))
    || (PrimaryLine(address.line).VStr? && LoneComma(PrimaryLine(address.line).s))
  }

  /** The primary line can be inspected without raising. */
  predicate AddressReadable(address: AddressReply) {
    address.AddressRecord? ==> PrimaryLine(address.line).VStr? || !Truthy(PrimaryLine(address.line))
  }

  /** The custom fields of a new card. */
  function ExtraFields(data: Payload, options: Option<seq<EnumItem>>): (extra: CardFields)
    ensures extra.Keys <= {UfOabField, NumOabField}
    ensures NumOabField in extra <==> Truthy(Get(data, NumOab))
    ensures NumOabField in extra ==> extra[NumOabField] == Get(data, NumOab)
    ensures UfOabField in extra ==> Truthy(Get(data, UfDaOab)) && options.Some?
  {
    var uf := Get(data, UfDaOab);
    var withState := if Truthy(uf) then WithStateId(map[], options, uf) else map[];
    var num := Get(data, NumOab);
    if Truthy(num) then withState[NumOabField := num] else withState
  }

  lemma NewCardExtraFields(data: Payload, options: Option<seq<EnumItem>>)
    ensures var extra := ExtraFields(data, options);
      var uf := Get(data, UfDaOab);
      var num := Get(data, NumOab);
      && extra.Keys <= {UfOabField, NumOabField}
      && PacoteField !in extra
      && (NumOabField in extra <==> Truthy(num))
      && (NumOabField in extra ==> extra[NumOabField] == num)
      && (UfOabField in extra <==>
            (Truthy(uf) && options.Some?
             && exists i :: 0 <= i < |options.value| && PyEq(options.value[i].value, uf)))
      && (UfOabField in extra ==>
            exists i :: 0 <= i < |options.value| && PyEq(options.value[i].value, uf)
              && (forall j :: 0 <= j < i ==> !PyEq(options.value[j].value, uf))
              && extra[UfOabField] == options.value[i].id)
  {
    var uf := Get(data, UfDaOab);
    if options.Some? && Truthy(uf) {
      var m := FirstMatch(options.value, uf);
      if m.Some? {
        assert PyEq(options.value[m.value].value, uf);
      }
    }
  }

  // ---------------------------------------------------------------------------
  // The whole decision

  /**
   * The existing-card branch, from the read of the card's fields on, continuing
   * the trace `t` of calls already issued.
   */
  function Enrich(data: Payload, r: Replies, contactId: Val, cardId: Val, t: seq<Call>): (run: Run)
    ensures |run.calls| > |t| && run.calls[..|t|] == t
    ensures run.calls[|t|] == FieldsRead(cardId)
    ensures run.outcome == Raised || run.outcome == Linked(Get(data, Etapa), contactId, cardId)
    ensures run.outcome.Linked? <==> r.cardFields.Decoded? && AddressReadable(r.address)
  {
    var read := t + [FieldsRead(cardId)];
    match r.cardFields
    case NotJson => Run(Raised, read)      // json.loads raises
    case NotObject => Run(Raised, read)    // `.get` on a non-dict raises
    case Decoded(card) => CheckAddress(data, r, contactId, cardId, UpdateCalls(data, card, r.enumOptions, cardId, read))
  }

  /**
   * The calls that bring an existing card up to date, continuing the trace `t`:
   * the read of the state options when the state is pending, then the update.
   */
  function UpdateCalls(data: Payload, card: CardFields, options: Option<seq<EnumItem>>, cardId: Val, t: seq<Call>): (calls: seq<Call>)
    ensures |t| <= |calls| && calls[..|t|] == t
  {
    var asked := if UfOabField in Pending(data, card, TRACKED) then t + [OptionsRead(Code(UfOabField))] else t;
    var fields := UpdateFields(data, card, options);
    if fields != map[] then asked + [CardUpdate(cardId, fields)] else asked
  }

  /** The state options are read exactly when the state is in the update set. */
  lemma UpdateCallsReadOptionsWhenStatePending(data: Payload, card: CardFields, options: Option<seq<EnumItem>>,
                                               cardId: Val, t: seq<Call>)
    ensures var calls := UpdateCalls(data, card, options, cardId, t);
      OptionsRead(Code(UfOabField)) in calls[|t|..] <==> UfOabField in Pending(data, card, TRACKED)
  {
    var o := OptionsRead(Code(UfOabField));
    var read := if UfOabField in Pending(data, card, TRACKED) then [o] else [];
    var fields := UpdateFields(data, card, options);
    var update := if fields != map[] then [CardUpdate(cardId, fields)] else [];
    OptionsReadInSuffix(t, read, update, o);
    assert t + read + [] == t + read;
  }

  /** An option read followed by at most card updates: the read is among the added calls exactly when it was added. */
  lemma OptionsReadInSuffix(t: seq<Call>, read: seq<Call>, update: seq<Call>, o: Call)
    requires read == [] || read == [o]
    requires !o.CardUpdate? && forall c :: c in update ==> c.CardUpdate?
    ensures |t| <= |t + read + update| && (t + read + update)[..|t|] == t
    ensures o in (t + read + update)[|t|..] <==> read == [o]
  {
    assert (t + read + update)[|t|..] == read + update;
  }

  /** The address check that ends the enrichment branch, continuing the trace `t`. */
  function CheckAddress(data: Payload, r: Replies, contactId: Val, cardId: Val, t: seq<Call>): (run: Run)
    ensures || run.calls == t + [AddressRead(contactId)]
            || run.calls == t + [AddressRead(contactId), AddressCreation(contactId, AddressFrom(data))]
    ensures run.outcome == Raised || run.outcome == Linked(Get(data, Etapa), contactId, cardId)
    ensures run.outcome.Raised? <==> !AddressReadable(r.address)
  {
    var checked := t + [AddressRead(contactId)];
    match AddressDecision(r.address)
    case None => Run(Raised, checked)
    case Some(create) =>
      Run(Linked(Get(data, Etapa), contactId, cardId),
          if create then checked + [AddressCreation(contactId, AddressFrom(data))] else checked)
  }

  /** The contact-creation path, from the creation of the contact on, continuing the trace `t`. */
  function Create(data: Payload, cfg: Config, r: Replies, t: seq<Call>): (run: Run)
    ensures |run.calls| > |t| && run.calls[..|t|] == t
    ensures run.outcome == Failed(CONTACT_FAILED) <==> !Truthy(r.newContactId)
    ensures run.outcome == Failed(CONTACT_FAILED) || run.outcome == Linked(Get(data, Etapa), r.newContactId, r.newCardId)
  {
    var created := t + [ContactCreation(ContactFrom(data))];
    if !Truthy(r.newContactId) then Run(Failed(CONTACT_FAILED), created)
    else
      var housed := created + [AddressCreation(r.newContactId, AddressFrom(data))];
      var asked := if Truthy(Get(data, UfDaOab)) then housed + [OptionsRead(Code(UfOabField))] else housed;
      var card := CardCreation(PyStr(Get(data, Name)), cfg.cardStageId, cfg.cardCategoryId,
                               cfg.cardAssignedById, r.newContactId, ExtraFields(data, r.enumOptions));
      Run(Linked(Get(data, Etapa), r.newContactId, r.newCardId), asked + [card])
  }

  /** The creation path reads the state options exactly when the contact is created and the payload has a state. */
  lemma CreateReadsOptionsWhenStateGiven(data: Payload, cfg: Config, r: Replies, t: seq<Call>)
    ensures OptionsRead(Code(UfOabField)) in Create(data, cfg, r, t).calls[|t|..]
        <==> Truthy(r.newContactId) && Truthy(Get(data, UfDaOab))
  {
    var c := ContactCreation(ContactFrom(data));
    if !Truthy(r.newContactId) {
      assert Create(data, cfg, r, t).calls[|t|..] == [c];
    } else {
      var a := AddressCreation(r.newContactId, AddressFrom(data));
      var read := if Truthy(Get(data, UfDaOab)) then [OptionsRead(Code(UfOabField))] else [];
      var card := CardCreation(PyStr(Get(data, Name)), cfg.cardStageId, cfg.cardCategoryId,
                               cfg.cardAssignedById, r.newContactId, ExtraFields(data, r.enumOptions));
      assert Create(data, cfg, r, t).calls[|t|..] == [c, a] + read + [card];
    }
  }

  /**
   * `process_webhook_data` as a value: its outcome and the CRM calls it issues,
   * appended to the trace `t` of earlier calls.
   */
  function ProcessAfter(data: Payload, cfg: Config, r: Replies, t: seq<Call>): (run: Run)
    ensures run.calls == t <==> !Truthy(Get(data, Cpf))
    ensures run.outcome == Failed(CPF_MISSING) <==> !Truthy(Get(data, Cpf))
    ensures run.outcome.Failed? ==> run.outcome.message in {CPF_MISSING, CONTACT_FAILED}
  {
    var cpf := Get(data, Cpf);
    if !Truthy(cpf) then Run(Failed(CPF_MISSING), t)
    else
      var found := t + [ContactLookup(cpf)];
      if !Truthy(r.contactId) then Create(data, cfg, r, found)
      else
        var looked := found + [CardLookup(r.contactId)];
        if !Truthy(r.cardId) then Create(data, cfg, r, looked)
        else Enrich(data, r, r.contactId, r.cardId, looked)
  }

  /** `process_webhook_data` on its own: the calls it issues from an empty trace. */
  function Process(data: Payload, cfg: Config, r: Replies): (run: Run)
    ensures run.calls == [] <==> !Truthy(Get(data, Cpf))
    ensures run.outcome.Linked? ==> run.outcome.etapa == Get(data, Etapa)
  {
    ProcessAfter(data, cfg, r, [])
  }

  /** Earlier calls are kept as they are, and the run's own calls follow them. */
  lemma {:induction false} ProcessAfterExtends(data: Payload, cfg: Config, r: Replies, t: seq<Call>)
    ensures ProcessAfter(data, cfg, r, t).outcome == Process(data, cfg, r).outcome
    ensures ProcessAfter(data, cfg, r, t).calls == t + Process(data, cfg, r).calls
  {
    var cpf := Get(data, Cpf);
    if Truthy(cpf) {
      var found := [ContactLookup(cpf)];
      assert [] + found == found;
      if !Truthy(r.contactId) {
        CreateExtends(data, cfg, r, t, found);
      } else {
        var looked := found + [CardLookup(r.contactId)];
        assert [] + found + [CardLookup(r.contactId)] == looked;
        AppendAssoc(t, found, [CardLookup(r.contactId)]);
        if !Truthy(r.cardId) {
          CreateExtends(data, cfg, r, t, looked);
        } else {
          EnrichExtends(data, r, r.contactId, r.cardId, t, looked);
        }
      }
    }
  }

  lemma {:induction false} CreateExtends(data: Payload, cfg: Config, r: Replies, t: seq<Call>, u: seq<Call>)
    ensures Create(data, cfg, r, t + u).outcome == Create(data, cfg, r, u).outcome
    ensures Create(data, cfg, r, t + u).calls == t + Create(data, cfg, r, u).calls
  {
    var c := ContactCreation(ContactFrom(data));
    AppendAssoc(t, u, [c]);
    if Truthy(r.newContactId) {
      var a := AddressCreation(r.newContactId, AddressFrom(data));
      AppendAssoc(t, u + [c], [a]);
      var o := OptionsRead(Code(UfOabField));
      AppendAssoc(t, u + [c] + [a], [o]);
      var asked := if Truthy(Get(data, UfDaOab)) then u + [c] + [a] + [o] else u + [c] + [a];
      var card := CardCreation(PyStr(Get(data, Name)), cfg.cardStageId, cfg.cardCategoryId,
                               cfg.cardAssignedById, r.newContactId, ExtraFields(data, r.enumOptions));
      AppendAssoc(t, asked, [card]);
    }
  }

  lemma {:induction false} EnrichExtends(data: Payload, r: Replies, contactId: Val, cardId: Val, t: seq<Call>, u: seq<Call>)
    ensures Enrich(data, r, contactId, cardId, t + u).outcome == Enrich(data, r, contactId, cardId, u).outcome
    ensures Enrich(data, r, contactId, cardId, t + u).calls == t + Enrich(data, r, contactId, cardId, u).calls
  {
    var read := u + [FieldsRead(cardId)];
    AppendAssoc(t, u, [FieldsRead(cardId)]);
    if r.cardFields.Decoded? {
      var card := r.cardFields.fields;
      UpdateCallsExtend(data, card, r.enumOptions, cardId, t, read);
      CheckAddressExtends(data, r, contactId, cardId, t, UpdateCalls(data, card, r.enumOptions, cardId, read));
    }
  }

  lemma UpdateCallsExtend(data: Payload, card: CardFields, options: Option<seq<EnumItem>>, cardId: Val, t: seq<Call>, u: seq<Call>)
    ensures UpdateCalls(data, card, options, cardId, t + u) == t + UpdateCalls(data, card, options, cardId, u)
  {
    var o := OptionsRead(Code(UfOabField));
    AppendAssoc(t, u, [o]);
    var asked := if UfOabField in Pending(data, card, TRACKED) then u + [o] else u;
    AppendAssoc(t, asked, [CardUpdate(cardId, UpdateFields(data, card, options))]);
  }

  lemma CheckAddressExtends(data: Payload, r: Replies, contactId: Val, cardId: Val, t: seq<Call>, u: seq<Call>)
    ensures CheckAddress(data, r, contactId, cardId, t + u).outcome == CheckAddress(data, r, contactId, cardId, u).outcome
    ensures CheckAddress(data, r, contactId, cardId, t + u).calls == t + CheckAddress(data, r, contactId, cardId, u).calls
  {
    AppendAssoc(t, u, [AddressRead(contactId)]);
    AppendAssoc(t, u + [AddressRead(contactId)], [AddressCreation(contactId, AddressFrom(data))]);
  }

  // ---------------------------------------------------------------------------
  // Properties of the whole decision

  /** The lookups find both a contact and its card, so the existing card is enriched. */
  predicate ReachesCard(data: Payload, r: Replies) {
    Truthy(Get(data, Cpf)) && Truthy(r.contactId) && Truthy(r.cardId)
  }

  /** The payload has a CPF but the lookups do not find both a contact and a card. */
  predicate ReachesCreation(data: Payload, r: Replies) {
    Truthy(Get(data, Cpf)) && !(Truthy(r.contactId) && Truthy(r.cardId))
  }

  /** The lookups that precede either branch. */
  function Lookups(data: Payload, r: Replies): seq<Call> {
    if Truthy(r.contactId) then [ContactLookup(Get(data, Cpf)), CardLookup(r.contactId)]
    else [ContactLookup(Get(data, Cpf))]
  }

  lemma MissingCpfMakesNoCall(data: Payload, cfg: Config, r: Replies)
    ensures Process(data, cfg, r).calls == [] <==> !Truthy(Get(data, Cpf))
    ensures !Truthy(Get(data, Cpf)) ==> Process(data, cfg, r).outcome == Failed(CPF_MISSING)
    ensures Truthy(Get(data, Cpf)) ==> Process(data, cfg, r).calls[0] == ContactLookup(Get(data, Cpf))
  {
    var cpf := Get(data, Cpf);
    if Truthy(cpf) {
      var found := [] + [ContactLookup(cpf)];
      assert found[..1] == [ContactLookup(cpf)];
    }
  }

  /** The card update the enrichment branch sends, if it sends one. */
  function ExpectedUpdates(data: Payload, r: Replies): seq<Call> {
    if ReachesCard(data, r) && r.cardFields.Decoded?
       && UpdateFields(data, r.cardFields.fields, r.enumOptions) != map[]
    then [CardUpdate(r.cardId, UpdateFields(data, r.cardFields.fields, r.enumOptions))]
    else []
  }

  lemma {:induction false} CreateSendsNoUpdate(data: Payload, cfg: Config, r: Replies, t: seq<Call>)
    ensures Filter(Create(data, cfg, r, t).calls, IsUpdate) == Filter(t, IsUpdate)
  {
    var created := t + [ContactCreation(ContactFrom(data))];
    FilterSnoc(t, ContactCreation(ContactFrom(data)), IsUpdate);
    if Truthy(r.newContactId) {
      var housed := created + [AddressCreation(r.newContactId, AddressFrom(data))];
      FilterSnoc(created, AddressCreation(r.newContactId, AddressFrom(data)), IsUpdate);
      FilterSnoc(housed, OptionsRead(Code(UfOabField)), IsUpdate);
      var asked := if Truthy(Get(data, UfDaOab)) then housed + [OptionsRead(Code(UfOabField))] else housed;
      var card := CardCreation(PyStr(Get(data, Name)), cfg.cardStageId, cfg.cardCategoryId,
                               cfg.cardAssignedById, r.newContactId, ExtraFields(data, r.enumOptions));
      FilterSnoc(asked, card, IsUpdate);
    }
  }

  lemma {:induction false} EnrichSendsOneUpdate(data: Payload, r: Replies, t: seq<Call>)
    requires ReachesCard(data, r)
    ensures Filter(Enrich(data, r, r.contactId, r.cardId, t).calls, IsUpdate)
         == Filter(t, IsUpdate) + ExpectedUpdates(data, r)
  {
    var before := Filter(t, IsUpdate);
    var read := t + [FieldsRead(r.cardId)];
    FilterSnoc(t, FieldsRead(r.cardId), IsUpdate);
    assert Filter(read, IsUpdate) == before;
    match r.cardFields
    case NotJson =>
      assert Enrich(data, r, r.contactId, r.cardId, t).calls == read;
      assert before + [] == before;
    case NotObject =>
      assert Enrich(data, r, r.contactId, r.cardId, t).calls == read;
      assert before + [] == before;
    case Decoded(card) =>
      UpdateCallsSendOneUpdate(data, card, r.enumOptions, r.cardId, read);
      CheckAddressSendsNoUpdate(data, r, r.contactId, r.cardId, UpdateCalls(data, card, r.enumOptions, r.cardId, read));
  }

  lemma UpdateCallsSendOneUpdate(data: Payload, card: CardFields, options: Option<seq<EnumItem>>, cardId: Val, t: seq<Call>)
    ensures var fields := UpdateFields(data, card, options);
      Filter(UpdateCalls(data, card, options, cardId, t), IsUpdate)
        == Filter(t, IsUpdate) + (if fields != map[] then [CardUpdate(cardId, fields)] else [])
  {
    var fields := UpdateFields(data, card, options);
    FilterSnoc(t, OptionsRead(Code(UfOabField)), IsUpdate);
    var asked := if UfOabField in Pending(data, card, TRACKED) then t + [OptionsRead(Code(UfOabField))] else t;
    assert Filter(asked, IsUpdate) == Filter(t, IsUpdate) + [];
    FilterSnoc(asked, CardUpdate(cardId, fields), IsUpdate);
  }

  lemma CheckAddressSendsNoUpdate(data: Payload, r: Replies, contactId: Val, cardId: Val, t: seq<Call>)
    ensures Filter(CheckAddress(data, r, contactId, cardId, t).calls, IsUpdate) == Filter(t, IsUpdate)
  {
    var checked := t + [AddressRead(contactId)];
    FilterSnoc(t, AddressRead(contactId), IsUpdate);
    FilterSnoc(checked, AddressCreation(contactId, AddressFrom(data)), IsUpdate);
  }

  /**
   * At most one card update is sent: exactly one, with the resolved update
   * set, when the existing card is reached and the set is not empty.
   */
  lemma AtMostOneCardUpdate(data: Payload, cfg: Config, r: Replies)
    ensures Filter(Process(data, cfg, r).calls, IsUpdate) == ExpectedUpdates(data, r)
    ensures |Filter(Process(data, cfg, r).calls, IsUpdate)| <= 1
    ensures forall c :: c in Process(data, cfg, r).calls && IsUpdate(c) ==> c in ExpectedUpdates(data, r)
  {
    FilterMembers(Process(data, cfg, r).calls, IsUpdate);
    var cpf := Get(data, Cpf);
    if Truthy(cpf) {
      var found := [] + [ContactLookup(cpf)];
      FilterSnoc([], ContactLookup(cpf), IsUpdate);
      if !Truthy(r.contactId) {
        CreateSendsNoUpdate(data, cfg, r, found);
      } else {
        var looked := found + [CardLookup(r.contactId)];
        FilterSnoc(found, CardLookup(r.contactId), IsUpdate);
        if !Truthy(r.cardId) {
          CreateSendsNoUpdate(data, cfg, r, looked);
        } else {
          EnrichSendsOneUpdate(data, r, looked);
        }
      }
    }
  }

  /** Whether the card update succeeds never changes the outcome or the later calls. */
  lemma UpdateReplyIgnored(data: Payload, cfg: Config, r: Replies, ok: bool)
    ensures Process(data, cfg, r.(updateOk := ok)) == Process(data, cfg, r)
  {
  }

  /**
   * With a contact and its card found, the result carries the looked-up ids
   * and neither a contact nor a card is created.
   */
  lemma ExistingCardResult(data: Payload, cfg: Config, r: Replies)
    requires ReachesCard(data, r) && r.cardFields.Decoded? && AddressReadable(r.address)
    ensures Process(data, cfg, r).outcome == Linked(Get(data, Etapa), r.contactId, r.cardId)
    ensures forall c :: c in Process(data, cfg, r).calls ==> !IsCreation(c)
  {
    var looked := [] + [ContactLookup(Get(data, Cpf))] + [CardLookup(r.contactId)];
    EnrichCreatesNothing(data, r, r.contactId, r.cardId, looked);
  }

  lemma EnrichCreatesNothing(data: Payload, r: Replies, contactId: Val, cardId: Val, t: seq<Call>)
    ensures forall c :: c in Enrich(data, r, contactId, cardId, t).calls && IsCreation(c) ==> c in t
  {
    var read := t + [FieldsRead(cardId)];
    if r.cardFields.Decoded? {
      var updated := UpdateCalls(data, r.cardFields.fields, r.enumOptions, cardId, read);
      UpdateCallsOnlyReadAndUpdate(data, r.cardFields.fields, r.enumOptions, cardId, read);
      CheckAddressCreatesNothing(data, r, contactId, cardId, updated);
      assert forall c :: c in updated && IsCreation(c) ==> c in t;
    }
  }

  lemma CheckAddressCreatesNothing(data: Payload, r: Replies, contactId: Val, cardId: Val, t: seq<Call>)
    ensures forall c :: c in CheckAddress(data, r, contactId, cardId, t).calls && IsCreation(c) ==> c in t
  {
  }

  /** A readable address is recreated exactly when it is missing, empty or a lone comma. */
  lemma AddressDecisionMatchesLack(address: AddressReply)
    requires AddressReadable(address)
    ensures AddressDecision(address) == Some(LacksAddress(address))
  {
    if address.AddressRecord? {
      var l := PrimaryLine(address.line);
      assert AddressDecision(address) == Some(IsEnderecoVazio(l));
    }
  }

  /** The enrichment branch adds at most one address creation, the one its decision asks for. */
  lemma {:induction false} EnrichAddressCalls(data: Payload, r: Replies, contactId: Val, cardId: Val, t: seq<Call>)
    requires r.cardFields.Decoded? && AddressDecision(r.address).Some?
    ensures var calls := Enrich(data, r, contactId, cardId, t).calls;
      && (AddressCreation(contactId, AddressFrom(data)) in calls <==>
            AddressCreation(contactId, AddressFrom(data)) in t || AddressDecision(r.address).value)
      && forall c :: c in calls && IsAddressCreation(c) ==>
           c in t || c == AddressCreation(contactId, AddressFrom(data))
  {
    var read := t + [FieldsRead(cardId)];
    var updated := UpdateCalls(data, r.cardFields.fields, r.enumOptions, cardId, read);
    UpdateCallsOnlyReadAndUpdate(data, r.cardFields.fields, r.enumOptions, cardId, read);
    CheckAddressCalls(data, r, contactId, cardId, updated);
    assert forall c :: c in updated && IsAddressCreation(c) ==> c in t;
    assert forall c :: c in t ==> c in updated;
  }

  lemma CheckAddressCalls(data: Payload, r: Replies, contactId: Val, cardId: Val, t: seq<Call>)
    requires AddressDecision(r.address).Some?
    ensures var calls := CheckAddress(data, r, contactId, cardId, t).calls;
      && (AddressCreation(contactId, AddressFrom(data)) in calls <==>
            AddressCreation(contactId, AddressFrom(data)) in t || AddressDecision(r.address).value)
      && forall c :: c in calls && IsAddressCreation(c) ==>
           c in t || c == AddressCreation(contactId, AddressFrom(data))
  {
  }

  lemma UpdateCallsOnlyReadAndUpdate(data: Payload, card: CardFields, options: Option<seq<EnumItem>>, cardId: Val, t: seq<Call>)
    ensures forall c :: c in t ==> c in UpdateCalls(data, card, options, cardId, t)
    ensures forall c :: c in UpdateCalls(data, card, options, cardId, t) ==> c in t || c.OptionsRead? || c.CardUpdate?
  {
  }

  /**
   * With a contact and its card found, the payload's address is created for
   * the contact exactly when it has none or only a lone comma, and no other
   * address is created.
   */
  lemma AddressRecreatedOnlyWhenMissing(data: Payload, cfg: Config, r: Replies)
    requires ReachesCard(data, r) && r.cardFields.Decoded? && AddressReadable(r.address)
    ensures AddressCreation(r.contactId, AddressFrom(data)) in Process(data, cfg, r).calls
        <==> LacksAddress(r.address)
    ensures forall c :: (c in Process(data, cfg, r).calls && IsAddressCreation(c)
                         ==> c == AddressCreation(r.contactId, AddressFrom(data)))
  {
    AddressDecisionMatchesLack(r.address);
    var looked := [] + [ContactLookup(Get(data, Cpf))] + [CardLookup(r.contactId)];
    assert looked == Lookups(data, r);
    EnrichAddressCalls(data, r, r.contactId, r.cardId, looked);
  }

  /** A card the CRM returns as malformed text makes the decode raise. */
  lemma MalformedCardRaises(data: Payload, cfg: Config, r: Replies)
    requires ReachesCard(data, r) && !r.cardFields.Decoded?
    ensures Process(data, cfg, r).outcome == Raised
    ensures Process(data, cfg, r).calls == Lookups(data, r) + [FieldsRead(r.cardId)]
  {
  }

  /**
   * An existing contact without a card is not reused: a second contact is
   * created with the payload's data, and the result names the new one.
   */
  lemma ContactWithoutCardIsCreatedAgain(data: Payload, cfg: Config, r: Replies)
    requires Truthy(Get(data, Cpf)) && Truthy(r.contactId) && !Truthy(r.cardId)
    ensures |Process(data, cfg, r).calls| >= 3
    ensures Process(data, cfg, r).calls[..3]
         == [ContactLookup(Get(data, Cpf)), CardLookup(r.contactId), ContactCreation(ContactFrom(data))]
    ensures Truthy(r.newContactId)
        ==> Process(data, cfg, r).outcome == Linked(Get(data, Etapa), r.newContactId, r.newCardId)
  {
    var looked := [ContactLookup(Get(data, Cpf)), CardLookup(r.contactId)];
    assert [] + [ContactLookup(Get(data, Cpf))] + [CardLookup(r.contactId)] == looked;
  }

  /** A contact that cannot be created stops the run before any address or card. */
  lemma FailedContactCreationStops(data: Payload, cfg: Config, r: Replies)
    requires ReachesCreation(data, r) && !Truthy(r.newContactId)
    ensures Process(data, cfg, r).outcome == Failed(CONTACT_FAILED)
    ensures Process(data, cfg, r).calls == Lookups(data, r) + [ContactCreation(ContactFrom(data))]
  {
  }

  /**
   * A created contact always gets the payload's address, and then a card
   * holding the extra fields, as the last call; no card is updated.
   */
  lemma NewContactGetsAddressAndCard(data: Payload, cfg: Config, r: Replies)
    requires ReachesCreation(data, r) && Truthy(r.newContactId)
    ensures var run := Process(data, cfg, r);
      && run.outcome == Linked(Get(data, Etapa), r.newContactId, r.newCardId)
      && AddressCreation(r.newContactId, AddressFrom(data)) in run.calls
      && |run.calls| > 0
      && run.calls[|run.calls| - 1]
         == CardCreation(PyStr(Get(data, Name)), cfg.cardStageId, cfg.cardCategoryId,
                         cfg.cardAssignedById, r.newContactId, ExtraFields(data, r.enumOptions))
      && forall c :: c in run.calls ==> !IsUpdate(c)
  {
  }

  /** `process_webhook_data`, step by step against the CRM client. */
  method ProcessWebhookData(data: Payload, cfg: Config, crm: Client) returns (outcome: Outcome)
    modifies crm
    ensures crm.calls == ProcessAfter(data, cfg, crm.replies, old(crm.calls)).calls
    ensures outcome == ProcessAfter(data, cfg, crm.replies, old(crm.calls)).outcome
  {
    var cpf := Get(data, Cpf);
    if !Truthy(cpf) {
      return Failed(CPF_MISSING);
    }
    var contactId := crm.FindContact(cpf);
    if !Truthy(contactId) {
      outcome := CreateRecords(data, cfg, crm);
      return;
    }
    var cardId := crm.FindCard(contactId);
    if !Truthy(cardId) {
      // an existing contact without a card falls through to the creation path
      outcome := CreateRecords(data, cfg, crm);
      return;
    }
    outcome := EnrichExisting(data, crm, contactId, cardId);
  }

  /** The existing-card branch of `process_webhook_data`. */
  method EnrichExisting(data: Payload, crm: Client, contactId: Val, cardId: Val) returns (outcome: Outcome)
    modifies crm
    ensures crm.calls == Enrich(data, crm.replies, contactId, cardId, old(crm.calls)).calls
    ensures outcome == Enrich(data, crm.replies, contactId, cardId, old(crm.calls)).outcome
  {
    var cardInfo := crm.ReadCardFields(cardId);
    if !cardInfo.Decoded? {
      // json.loads raises on text that is not JSON, and `.get` on a JSON value that is not an object
      return Raised;
    }
    var campos := CollectUpdates(data, cardInfo.fields);
    if UfOabField in campos {
      var options := crm.ReadEnumOptions(Code(UfOabField));
      if options.Some? {
        campos := AssignFirstMatch(campos, options.value, Get(data, UfDaOab));
      }
    }
    assert campos == UpdateFields(data, cardInfo.fields, crm.replies.enumOptions);
    if campos != map[] {
      var ok := crm.UpdateCard(cardId, campos);  // the result is only logged
    }
    assert crm.calls == UpdateCalls(data, cardInfo.fields, crm.replies.enumOptions, cardId, old(crm.calls) + [FieldsRead(cardId)]);
    outcome := RecreateMissingAddress(data, crm, contactId, cardId);
  }

  /** The address check of the existing-card branch. */
  method RecreateMissingAddress(data: Payload, crm: Client, contactId: Val, cardId: Val) returns (outcome: Outcome)
    modifies crm
    ensures crm.calls == CheckAddress(data, crm.replies, contactId, cardId, old(crm.calls)).calls
    ensures outcome == CheckAddress(data, crm.replies, contactId, cardId, old(crm.calls)).outcome
  {
    var address := crm.ReadAddress(contactId);
    var create := address.NoAddress?;
    if !create {
      var line := PrimaryLine(address.line);
      if !(line.VStr? || !Truthy(line)) {
        return Raised;  // `.strip()` on a non-string
      }
      create := IsEnderecoVazio(line);
    }
    if create {
      crm.CreateAddress(contactId, AddressFrom(data));
    }
    return Linked(Get(data, Etapa), contactId, cardId);
  }

  /** The contact-creation path of `process_webhook_data`. */
  method CreateRecords(data: Payload, cfg: Config, crm: Client) returns (outcome: Outcome)
    modifies crm
    ensures crm.calls == Create(data, cfg, crm.replies, old(crm.calls)).calls
    ensures outcome == Create(data, cfg, crm.replies, old(crm.calls)).outcome
  {
    var newContactId := crm.CreateContact(ContactFrom(data));
    if !Truthy(newContactId) {
      return Failed(CONTACT_FAILED);
    }
    crm.CreateAddress(newContactId, AddressFrom(data));
    var extra: CardFields := map[];
    if Truthy(Get(data, UfDaOab)) {
      var options := crm.ReadEnumOptions(Code(UfOabField));
      if options.Some? {
        extra := AssignFirstMatch(extra, options.value, Get(data, UfDaOab));
      }
    }
    if Truthy(Get(data, NumOab)) {
      extra := extra[NumOabField := Get(data, NumOab)];
    }
    var cardId := crm.CreateCard(PyStr(Get(data, Name)), cfg.cardStageId, cfg.cardCategoryId,
                                 cfg.cardAssignedById, newContactId, extra);
    return Linked(Get(data, Etapa), newContactId, cardId);
  }
}
