/**
 * The CRM client the core talks to (`utils.bitrixUtils`), which is not part of
 * this model. It is abstracted as a fixed set of replies, one per kind of
 * lookup, and a trace that every call, read or write, is appended to.
 */
module Crm {
  import opened Wrappers
  import opened PyValues

  /**
   * The fields of a card that the core reads or writes. The CRM names them by
   * the codes `Code` gives; the core never touches any other field.
   */
  datatype CardField = CategoryId | StageId | NumOabField | UfOabField | PacoteField

  /** The key under which the CRM stores a card field. */
  function Code(f: CardField): string {
    match f
    case CategoryId => "categoryId"
    case StageId => "stageId"
    case NumOabField => "ufCrm41_1737980095947"   // bar-association number
    case UfOabField => "ufCrm41_1737980514688"    // bar-association state, an enumerated field
    case PacoteField => "ufCrm41_1739881889472"   // package
  }

  /** Distinct fields have distinct codes, so keying by field is keying by code. */
  lemma CodesDistinct(f: CardField, g: CardField)
    requires f != g
    ensures Code(f) != Code(g)
  {
    assert Code(NumOabField)[15] != Code(UfOabField)[15];
    assert Code(NumOabField)[11] != Code(PacoteField)[11];
    assert Code(UfOabField)[11] != Code(PacoteField)[11];
  }

  /** A card's fields, or a set of field values to write to a card. */
  type CardFields = map<CardField, Val>

  /**
   * The contact's address as the address lookup returns it: nothing (None or
   * an empty record, both falsy), or a record whose `ADDRESS_1` primary line
   * is the given value (None when the record has no such key).
   */
  datatype AddressReply = NoAddress | AddressRecord(line: Option<Val>)

  /** One option of an enumerated card field: `item.get("VALUE")`, `item.get("ID")`. */
  datatype EnumItem = EnumItem(value: Val, id: Val)

  /** The address record handed to the address-creation call. */
  datatype Address = Address(rua: Val, numero: Val, cidade: Val, cep: Val,
                             estado: Val, bairro: Val, complemento: Val)

  /** The contact record handed to the contact-creation call. */
  datatype ContactData = ContactData(cpf: Val, name: Val, email: Val, celular: Val)

  /** One call issued to the CRM, with the arguments that vary between calls. */
  datatype Call =
    | ContactLookup(cpf: Val)                            // verificarContato
    | CardLookup(contactId: Val)                         // obterCardPorContato
    | FieldsRead(cardId: Val)                            // obterCampos
    | OptionsRead(field: string)                         // obterCampoEspecifico
    | CardUpdate(cardId: Val, fields: CardFields)              // atualizarCard
    | AddressRead(contactId: Val)                        // obterEndereco
    | AddressCreation(contactId: Val, address: Address)  // criarEndereco
    | ContactCreation(contact: ContactData)              // criarContato
    | CardCreation(title: string, stageId: Option<string>, categoryId: int,
                   assignedById: int, contactId: Val, extra: CardFields)  // criarCardContato
    | StageMove(target: string, cardId: Val)             // moverEtapaCard

  /**
   * What `json.loads` makes of a card's fields text: an error when the text is
   * not JSON, a JSON value that is not an object (`null`, a list, a number, a
   * string), or an object holding the card's fields.
   */
  datatype FieldsReply = NotJson | NotObject | Decoded(fields: CardFields)

  /**
   * What the CRM answers to each kind of call. A falsy id means "not found" or
   * "creation failed". `cardFields` is what `json.loads` makes of the card's
   * fields text; `enumOptions` is the
   * option list of the enumerated field (None when the reply is falsy or not a
   * dict; an empty list when it lacks the field or its `items`).
   */
  datatype Replies = Replies(
    contactId: Val,
    cardId: Val,
    cardFields: FieldsReply,
    enumOptions: Option<seq<EnumItem>>,
    updateOk: bool,
    address: AddressReply,
    newContactId: Val,
    newCardId: Val,
    moveOk: bool)

  /** The calls of `calls` that `keep` selects, in order. */
  function Filter(calls: seq<Call>, keep: Call -> bool): (r: seq<Call>)
    ensures |r| <= |calls|
  {
    if calls == [] then []
    else (if keep(calls[0]) then [calls[0]] else []) + Filter(calls[1..], keep)
  }

  /** The filtered trace holds exactly the kept calls of the trace. */
  lemma {:induction false} FilterMembers(calls: seq<Call>, keep: Call -> bool)
    ensures forall c :: c in Filter(calls, keep) <==> c in calls && keep(c)
  {
    if calls != [] {
      FilterMembers(calls[1..], keep);
      assert forall c :: c in calls <==> c == calls[0] || c in calls[1..];
    }
  }

  lemma {:induction false} FilterConcat(a: seq<Call>, b: seq<Call>, keep: Call -> bool)
    ensures Filter(a + b, keep) == Filter(a, keep) + Filter(b, keep)
  {
    if a == [] {
      assert a + b == b;
    } else {
      var head := if keep(a[0]) then [a[0]] else [];
      assert (a + b)[0] == a[0];
      assert (a + b)[1..] == a[1..] + b;
      FilterConcat(a[1..], b, keep);
      calc {
        Filter(a + b, keep);
        head + Filter(a[1..] + b, keep);
        head + (Filter(a[1..], keep) + Filter(b, keep));
        (head + Filter(a[1..], keep)) + Filter(b, keep);
      }
    }
  }

  /** Filtering a trace extended by one call. */
  lemma FilterSnoc(a: seq<Call>, x: Call, keep: Call -> bool)
    ensures Filter(a + [x], keep) == Filter(a, keep) + if keep(x) then [x] else []
  {
    FilterConcat(a, [x], keep);
    assert [x][1..] == [];
  }

  lemma AppendAssoc(a: seq<Call>, b: seq<Call>, c: seq<Call>)
    ensures a + b + c == a + (b + c)
  {
  }

  predicate IsUpdate(c: Call) { c.CardUpdate? }
  predicate IsMove(c: Call) { c.StageMove? }
  predicate IsCreation(c: Call) { c.ContactCreation? || c.CardCreation? }
  predicate IsAddressCreation(c: Call) { c.AddressCreation? }

  /** The CRM as the core sees it: fixed replies, and the calls made so far. */
  class Client {
    const replies: Replies
    ghost var calls: seq<Call>

    constructor (replies: Replies)
      ensures this.replies == replies && calls == []
    {
      this.replies := replies;
      calls := [];
    }

    method FindContact(cpf: Val) returns (contactId: Val)
      modifies this
      ensures calls == old(calls) + [ContactLookup(cpf)] && contactId == replies.contactId
    {
      calls := calls + [ContactLookup(cpf)];
      contactId := replies.contactId;
    }

    method FindCard(contactId: Val) returns (cardId: Val)
      modifies this
      ensures calls == old(calls) + [CardLookup(contactId)] && cardId == replies.cardId
    {
      calls := calls + [CardLookup(contactId)];
      cardId := replies.cardId;
    }

    method ReadCardFields(cardId: Val) returns (fields: FieldsReply)
      modifies this
      ensures calls == old(calls) + [FieldsRead(cardId)] && fields == replies.cardFields
    {
      calls := calls + [FieldsRead(cardId)];
      fields := replies.cardFields;
    }

    method ReadEnumOptions(field: string) returns (items: Option<seq<EnumItem>>)
      modifies this
      ensures calls == old(calls) + [OptionsRead(field)] && items == replies.enumOptions
    {
      calls := calls + [OptionsRead(field)];
      items := replies.enumOptions;
    }

    method UpdateCard(cardId: Val, fields: CardFields) returns (ok: bool)
      modifies this
      ensures calls == old(calls) + [CardUpdate(cardId, fields)] && ok == replies.updateOk
    {
      calls := calls + [CardUpdate(cardId, fields)];
      ok := replies.updateOk;
    }

    method ReadAddress(contactId: Val) returns (address: AddressReply)
      modifies this
      ensures calls == old(calls) + [AddressRead(contactId)] && address == replies.address
    {
      calls := calls + [AddressRead(contactId)];
      address := replies.address;
    }

    method CreateAddress(contactId: Val, address: Address)
      modifies this
      ensures calls == old(calls) + [AddressCreation(contactId, address)]
    {
      calls := calls + [AddressCreation(contactId, address)];
    }

    method CreateContact(contact: ContactData) returns (contactId: Val)
      modifies this
      ensures calls == old(calls) + [ContactCreation(contact)] && contactId == replies.newContactId
    {
      calls := calls + [ContactCreation(contact)];
      contactId := replies.newContactId;
    }

    method CreateCard(title: string, stageId: Option<string>, categoryId: int,
                      assignedById: int, contactId: Val, extra: CardFields) returns (cardId: Val)
      modifies this
      ensures calls == old(calls) + [CardCreation(title, stageId, categoryId, assignedById, contactId, extra)]
      ensures cardId == replies.newCardId
    {
      calls := calls + [CardCreation(title, stageId, categoryId, assignedById, contactId, extra)];
      cardId := replies.newCardId;
    }

    method MoveStage(stageId: string, cardId: Val) returns (ok: bool)
      modifies this
      ensures calls == old(calls) + [StageMove(stageId, cardId)] && ok == replies.moveOk
    {
      calls := calls + [StageMove(stageId, cardId)];
      ok := replies.moveOk;
    }
  }
}
