# Webhook registration core, modelled in Dafny

This project models the two decision components of a registration webhook.
Both sit between an HTTP endpoint and a Bitrix24 CRM client.

- **`process_webhook_data`** (VerifyAndCreateData.py) takes a registration payload and decides one of three things:
  - reject the payload, because it has no CPF;
  - enrich the card and the address of a contact the CRM already knows;
  - create a contact, its address and a card.

  `is_endereco_vazio` decides whether a stored address line counts as empty.
- **`exibir_info_pipeline`** (MovePipeline.py) reads a card's category and stage.
  It moves the card to the stage that a stage code names, using the five-entry table `ETAPAS_STAGE_IDS`, unless the card is already on that stage.
  It returns what it read.

The CRM client itself is not part of this model.
Module `Crm` abstracts it as class `Client`:
- its lookups return fixed replies, which are inputs (`Replies`);
- every call it receives, read or write, is appended to a ghost trace `calls`.

This makes statements about the calls possible: which calls are issued, with which arguments and in which order.
Two examples are "no CRM call at all" and "exactly one card update".

Each component is modelled twice.
- **As a value.** `VerifyAndCreateData.Process` and `MovePipeline.Pipeline` give the outcome and the call trace as functions of the payload and the replies.
- **As a procedure.** `VerifyAndCreateData.ProcessWebhookData` and `MovePipeline.ExibirInfoPipeline` work step by step against a `Client`, in the source's form:
  - the update set is built in a loop (`CollectUpdates`);
  - the state options are scanned with an early exit (`AssignFirstMatch`);
  - the extra fields of a new card are built up in place;
  - each procedure returns early where the source does.

  Each procedure is proved to issue exactly the calls of its value model and to return exactly its result.
  The `*After` forms of the value models take the trace of earlier calls as a prefix.
  `ProcessAfterExtends` and `PipelineAfterExtends` show that this prefix is only prepended.

Python semantics are modelled in module `PyValues`:
- JSON scalars: `None`, bool, int and str;
- truthiness;
- `==`, where `True == 1`, which also governs dictionary lookup;
- `dict.get`, `str()` and `str.strip()` with Python's white-space set.

Payload keys and card fields are closed enumerations.
`KeyName` and `Crm.Code` give the JSON names and CRM codes of the keys and fields.

Two behaviours of the code are modelled as written:
- **A contact without a card is created again.** When the contact exists but has no card, control falls through to the creation path. A second contact is created with the same CPF (`ContactWithoutCardIsCreatedAgain`).
- **An unmatched state is kept raw.** When no option of the bar-association state field matches, the enrichment branch keeps the raw payload value in the update (`StateResolvedToFirstMatch`). It is not dropped: the scan at VerifyAndCreateData.py:76-79 overwrites the entry only on a match, so the raw payload value stays. The creation path, by contrast, leaves the field out.

## Model

| member | source | states |
|---|---|---|
| PyValues.TrimStart | VerifyAndCreateData.py:23 | `lstrip` removes exactly a leading run of white space and stops at a non-space character |
| PyValues.TrimEnd | VerifyAndCreateData.py:23 | `rstrip` removes exactly a trailing run of white space and stops at a non-space character |
| PyValues.TrimStartStopsAt | VerifyAndCreateData.py:23 | white space followed by a non-space character strips to the suffix starting there |
| PyValues.TrimEndKeepsComma | VerifyAndCreateData.py:23 | a comma followed by white space right-strips to the comma alone |
| PyValues.StrippedCommaIsLone | VerifyAndCreateData.py:23 | a string that strips to `","` is a comma padded with white space |
| PyValues.LoneCommaStrips | VerifyAndCreateData.py:23 | a comma padded with white space strips to `","` |
| PyValues.StripIsLoneComma | VerifyAndCreateData.py:23 | `s.strip() == ","` holds exactly when `s` is a lone comma padded with white space |
| PyValues.Strip | VerifyAndCreateData.py:23 | `strip()` is the slice of its input between a leading and a trailing run of white space; it is empty exactly for blank text, and otherwise neither starts nor ends with white space |
| PyValues.TrimBothEnds | VerifyAndCreateData.py:23 | trimming both ends leaves text that is empty exactly when the input is blank, and otherwise has no white space at either end |
| PyValues.TrimmedIsSlice | VerifyAndCreateData.py:23 | trimming both ends leaves the slice of the input between a leading and a trailing run of white space |
| PyValues.SliceOfSlice | VerifyAndCreateData.py:23 | a prefix cut at white space of a suffix cut at white space is a slice of the input with only white space around it |
| PyValues.CommaAtStrips | VerifyAndCreateData.py:23 | a comma at a given position with only white space around it strips to `","` |
| PyValues.PyEqIsEquivalence | VerifyAndCreateData.py:77 | Python `==` on JSON scalars is reflexive, symmetric and transitive, equates `True` with `1` and `False` with `0`, and never a string with a number |
| PyValues.FalsyValues | VerifyAndCreateData.py:40 | the falsy scalars are exactly None, `False`, `0` and `""`, and anything equal to `0` is falsy |
| PyValues.PyStr | VerifyAndCreateData.py:152 | `str()` of a non-negative integer is a decimal rendering of its value without leading zeros, of a negative one `-` followed by that of its magnitude; of None `"None"`, of a bool `"True"`/`"False"`, of a string the string itself |
| PyValues.Digits | VerifyAndCreateData.py:152 | the decimal rendering of a natural number consists of digits, denotes that number, and has no leading zero |
| Crm.CodesDistinct | VerifyAndCreateData.py:61-65 | the three custom card-field codes listed here, and the two standard ones `categoryId` and `stageId` read at MovePipeline.py:43-44, are pairwise distinct, so keying by field is keying by code |
| Crm.Client.FindContact | VerifyAndCreateData.py:44 | the contact lookup by CPF is recorded and returns the CRM's contact id |
| Crm.Client.FindCard | VerifyAndCreateData.py:50 | the card lookup by contact is recorded and returns the CRM's card id |
| Crm.Client.ReadCardFields | VerifyAndCreateData.py:56-57 | the card-field read is recorded and returns what `json.loads` makes of the text: not JSON, JSON that is not an object, or the card's fields |
| Crm.Client.ReadEnumOptions | VerifyAndCreateData.py:73-75 | the read of the state field's options is recorded and returns the option list, or nothing for a falsy or non-dictionary reply |
| Crm.Client.UpdateCard | VerifyAndCreateData.py:83 | the card update is recorded with its card id and fields, and returns the CRM's success flag |
| Crm.Client.ReadAddress | VerifyAndCreateData.py:90 | the address read is recorded and returns the contact's address reply |
| Crm.Client.CreateAddress | VerifyAndCreateData.py:103 | the address creation is recorded with its contact id and address record |
| Crm.Client.CreateContact | VerifyAndCreateData.py:119 | the contact creation is recorded with its record and returns the new id, falsy on failure |
| Crm.Client.CreateCard | VerifyAndCreateData.py:153-156 | the card creation is recorded with title, configured stage, category, assignee, contact and extra fields |
| Crm.Client.MoveStage | MovePipeline.py:63 | the stage move is recorded with its target stage and card id, and returns the CRM's success flag |
| VerifyAndCreateData.KeyNamesDistinct | VerifyAndCreateData.py:39-150 | distinct payload keys have distinct JSON names, so the payload map loses no field the processor reads |
| VerifyAndCreateData.IsEnderecoVazio | VerifyAndCreateData.py:21-23 | an address line is empty exactly when it is falsy or a lone comma padded with white space |
| VerifyAndCreateData.CommaOnlyAddressesAreEmpty | VerifyAndCreateData.py:21-23 | `","`, `" , "`, `""` and None are empty address lines |
| VerifyAndCreateData.StreetAddressIsNotEmpty | VerifyAndCreateData.py:21-23 | `"Rua A, 10"` is not an empty address line |
| VerifyAndCreateData.Pending | VerifyAndCreateData.py:67-69 | every entry of the update set comes from a tracked field whose card value is falsy and whose payload value is truthy, and carries that payload value |
| VerifyAndCreateData.PendingExtends | VerifyAndCreateData.py:67-69 | visiting one more tracked field performs one more step of the update-set fold |
| VerifyAndCreateData.CollectUpdates | VerifyAndCreateData.py:60-69 | the loop over the tracked fields builds exactly the update set |
| VerifyAndCreateData.PendingUnrolled | VerifyAndCreateData.py:67-69 | the update set is the three steps for `numOAB`, `UFdaOAB` and `pacote`, in that order |
| VerifyAndCreateData.UpdateSetFillsOnlyEmptyFields | VerifyAndCreateData.py:60-69 | the update set's keys are among the three tracked fields; a tracked field is present iff the card's value is falsy and the payload's is truthy; its value is the payload's; no populated card field is a key |
| VerifyAndCreateData.UpdateFields | VerifyAndCreateData.py:60-79 | the fields sent to the card update have exactly the keys of the update set |
| VerifyAndCreateData.WithStateId | VerifyAndCreateData.py:76-79 | resolving the state changes no field but the state, and adds the state only when an option list was read |
| VerifyAndCreateData.WithStateIdPicksFirstMatch | VerifyAndCreateData.py:76-79 | a present state becomes the `ID` of the first matching option, and stays as it was with no option list or no match |
| VerifyAndCreateData.PendingStateIsPayload | VerifyAndCreateData.py:67-69 | a pending state in the update set holds the payload's `UFdaOAB` |
| VerifyAndCreateData.FirstMatch | VerifyAndCreateData.py:76-79 | the index found is of an option whose value equals the wanted value, and no earlier option matches; none is found only when no option matches |
| VerifyAndCreateData.AssignFirstMatch | VerifyAndCreateData.py:76-79 | the scan with `break` sets the state field to the ID of the first matching option, and leaves the fields unchanged when nothing matches |
| VerifyAndCreateData.UpdateNeverOverwrites | VerifyAndCreateData.py:60-79 | state resolution keeps the update set's keys, so no populated card field is written, and changes no value but the state's |
| VerifyAndCreateData.StateResolvedToFirstMatch | VerifyAndCreateData.py:72-79 | a pending state becomes the ID of the first option equal to the payload's `UFdaOAB`; with no option list or no match the raw payload value stays |
| VerifyAndCreateData.AddressFrom | VerifyAndCreateData.py:94-102 | each address field present in the payload is passed under its address key with the payload's value |
| VerifyAndCreateData.ContactFrom | VerifyAndCreateData.py:112-117 | the new contact carries the payload's CPF; a present name, email or phone is passed through, and a missing one becomes `""` |
| VerifyAndCreateData.AddressDecision | VerifyAndCreateData.py:90-92 | a missing address is recreated; the decision fails exactly when the primary line is a truthy non-string, on which `.strip()` raises |
| VerifyAndCreateData.ExtraFields | VerifyAndCreateData.py:139-150 | a new card's extra fields are among the state and `numOAB` fields; `numOAB` is present exactly when truthy, with the payload's value; the state only when the payload has one and an option list was read |
| VerifyAndCreateData.MissingAddressFieldsAreEmpty | VerifyAndCreateData.py:94-102 | an address key missing from the payload is passed to the CRM as `""` |
| VerifyAndCreateData.NewCardExtraFields | VerifyAndCreateData.py:139-150 | a new card's extra fields hold the state ID only when an option matches, `numOAB` exactly when it is truthy, and never `pacote` |
| VerifyAndCreateData.ProcessAfter | VerifyAndCreateData.py:39-158 | after earlier calls, no call is added exactly when the CPF is falsy, and then the result is the "CPF não informado" error; the only error messages are the two listed ones |
| VerifyAndCreateData.Process | VerifyAndCreateData.py:39-158 | no CRM call is made exactly when the CPF is falsy; a returned record carries the payload's `etapa` |
| VerifyAndCreateData.Enrich | VerifyAndCreateData.py:55-107 | the existing-card branch keeps earlier calls and first reads the card's fields; it returns the payload's `etapa` with the found ids exactly when the fields decode to an object and the address line can be inspected, and otherwise raises |
| VerifyAndCreateData.CheckAddress | VerifyAndCreateData.py:89-107 | the address check adds exactly the address read, or the read followed by the creation of the payload's address for the contact; it raises exactly when the primary line is a truthy non-string |
| VerifyAndCreateData.Create | VerifyAndCreateData.py:110-158 | the creation path keeps earlier calls, fails with "Falha ao criar contato" exactly when the contact creation returns a falsy id, and otherwise returns the new contact and card ids |
| VerifyAndCreateData.ProcessAfterExtends | VerifyAndCreateData.py:39-158 | the processor's calls follow any earlier calls unchanged, and its outcome does not depend on them |
| VerifyAndCreateData.CreateExtends | VerifyAndCreateData.py:110-158 | the creation path's calls follow any earlier calls unchanged |
| VerifyAndCreateData.EnrichExtends | VerifyAndCreateData.py:55-107 | the enrichment branch's calls follow any earlier calls unchanged |
| VerifyAndCreateData.MissingCpfMakesNoCall | VerifyAndCreateData.py:39-44 | no CRM call is made exactly when the CPF is absent or falsy, and then the result is the "CPF não informado" error; otherwise the first call looks the CPF up |
| VerifyAndCreateData.CreateSendsNoUpdate | VerifyAndCreateData.py:110-158 | the creation path never updates a card |
| VerifyAndCreateData.EnrichSendsOneUpdate | VerifyAndCreateData.py:82-87 | the enrichment branch sends one card update, with the resolved update set, exactly when that set is non-empty |
| VerifyAndCreateData.UpdateCalls | VerifyAndCreateData.py:71-87 | bringing the card up to date keeps the earlier calls as a prefix |
| VerifyAndCreateData.UpdateCallsReadOptionsWhenStatePending | VerifyAndCreateData.py:72-73 | the state options are read exactly when the state field is in the update set |
| VerifyAndCreateData.OptionsReadInSuffix | VerifyAndCreateData.py:72-83 | after an optional option read and card updates only, the option read is among the added calls exactly when it was added |
| VerifyAndCreateData.CreateReadsOptionsWhenStateGiven | VerifyAndCreateData.py:119-141 | the creation path reads the state options exactly when the contact is created and the payload's `UFdaOAB` is truthy |
| VerifyAndCreateData.UpdateCallsExtend | VerifyAndCreateData.py:71-87 | the option read and the update follow any earlier calls unchanged |
| VerifyAndCreateData.CheckAddressExtends | VerifyAndCreateData.py:89-107 | the address check's calls follow any earlier calls unchanged, and its outcome does not depend on them |
| VerifyAndCreateData.UpdateCallsSendOneUpdate | VerifyAndCreateData.py:82-87 | bringing the card up to date adds one update, with the resolved fields, exactly when they are non-empty |
| VerifyAndCreateData.UpdateCallsOnlyReadAndUpdate | VerifyAndCreateData.py:71-87 | bringing the card up to date keeps earlier calls and adds only an option read or a card update |
| VerifyAndCreateData.CheckAddressSendsNoUpdate | VerifyAndCreateData.py:89-105 | the address check never updates a card |
| VerifyAndCreateData.AtMostOneCardUpdate | VerifyAndCreateData.py:82-87 | a run sends at most one card update: exactly one, to the found card with the resolved set, when the card is reached, its fields decode and the set is non-empty |
| VerifyAndCreateData.UpdateReplyIgnored | VerifyAndCreateData.py:83-87 | the card update's success or failure changes neither the result nor the calls |
| VerifyAndCreateData.ExistingCardResult | VerifyAndCreateData.py:52-107 | with contact and card found, the result is the payload's `etapa` with the looked-up ids, and no contact or card is created |
| VerifyAndCreateData.EnrichCreatesNothing | VerifyAndCreateData.py:55-107 | the existing-card branch creates no contact and no card |
| VerifyAndCreateData.CheckAddressCreatesNothing | VerifyAndCreateData.py:89-107 | the address check creates no contact and no card |
| VerifyAndCreateData.CheckAddressCalls | VerifyAndCreateData.py:89-105 | the address check adds the payload's address for the contact exactly when the decision asks for it, and no other address |
| VerifyAndCreateData.AddressDecisionMatchesLack | VerifyAndCreateData.py:92 | a readable address is recreated exactly when it is missing, or its primary line is falsy or a lone comma |
| VerifyAndCreateData.EnrichAddressCalls | VerifyAndCreateData.py:89-105 | the enrichment branch adds the payload's address for the contact exactly when the address decision asks for it, and no other address |
| VerifyAndCreateData.AddressRecreatedOnlyWhenMissing | VerifyAndCreateData.py:89-105 | with contact and card found, the payload's address is created iff the contact has none or only an empty or comma-only line |
| VerifyAndCreateData.MalformedCardRaises | VerifyAndCreateData.py:56-68 | card fields that are not JSON, or JSON but not an object, end the run with an uncaught error after the field read |
| VerifyAndCreateData.ContactWithoutCardIsCreatedAgain | VerifyAndCreateData.py:46-121 | an existing contact without a card falls through: a new contact is created after the two lookups, and the result names the new contact |
| VerifyAndCreateData.FailedContactCreationStops | VerifyAndCreateData.py:119-121 | a failed contact creation returns "Falha ao criar contato" with no address or card created |
| VerifyAndCreateData.NewContactGetsAddressAndCard | VerifyAndCreateData.py:123-158 | a created contact always gets the payload's address, the last call creates its card with the extra fields, no card is updated, and the result names the new ids |
| VerifyAndCreateData.ProcessWebhookData | VerifyAndCreateData.py:25-158 | the procedure issues exactly the calls of `Process` and returns its outcome |
| VerifyAndCreateData.EnrichExisting | VerifyAndCreateData.py:55-107 | the existing-card branch issues exactly the calls of `Enrich` and returns its outcome |
| VerifyAndCreateData.RecreateMissingAddress | VerifyAndCreateData.py:89-107 | the address check issues exactly the calls of `CheckAddress` and returns its outcome |
| VerifyAndCreateData.CreateRecords | VerifyAndCreateData.py:109-158 | the creation path issues exactly the calls of `Create` and returns its outcome |
| MovePipeline.StageFor | MovePipeline.py:60 | a code finds a stage exactly when it is a number (a bool counts) in the table, and the stage is the table's entry |
| MovePipeline.StageTableIsExact | MovePipeline.py:15-21 | exactly the codes 1 to 5 have a stage, each one the listed stage; `True` finds code 1; None, strings and `False` find none |
| MovePipeline.StagesAreDistinct | MovePipeline.py:15-21 | no two codes share a stage |
| MovePipeline.MoveTarget | MovePipeline.py:60-62 | a move target exists exactly when the code has a stage that differs from the current stage, and it is that stage |
| MovePipeline.ReadFields | MovePipeline.py:31-50 | fields are read only for a truthy card id whose reply decodes to an object, and then they are that object |
| MovePipeline.PipelineAfter | MovePipeline.py:23-76 | after earlier calls, adds at most two calls: the field read, first and only for a truthy card id, and otherwise only a move of that card to the code's stage; raises exactly when a truthy card id's fields are JSON but not an object; a record echoes `etapa` and `card_id` |
| MovePipeline.Pipeline | MovePipeline.py:23-76 | at most two calls; a raise comes right after the field read, with no move |
| MovePipeline.PipelineAfterExtends | MovePipeline.py:23-76 | the mover's calls follow any earlier calls unchanged, and its result does not depend on them |
| MovePipeline.ExibirInfoPipeline | MovePipeline.py:23-76 | the procedure issues exactly the calls of `Pipeline` and returns its record |
| MovePipeline.MoveOnlyWhenStageDiffers | MovePipeline.py:60-63 | a move to the code's stage is issued, for the given card id, exactly when that stage differs from the stage read, and at most once |
| MovePipeline.MoveSkippedOnSameStage | MovePipeline.py:60-63 | a card on the code's own stage is only read; a card on another code's stage is read and then moved |
| MovePipeline.NewStageExamples | MovePipeline.py:60-63 | on `"DT128_203:NEW"`, code 3 issues no move, while code 1 moves the card to `"DT128_203:UC_XANPBC"` |
| MovePipeline.NoCardIdStillMoves | MovePipeline.py:31-63 | without a card id nothing is read and both fields stay None, yet a move is issued for any code in the table |
| MovePipeline.MalformedFieldsAreNotFatal | MovePipeline.py:35-63 | card fields that are not JSON leave both fields None, and the move decision still runs |
| MovePipeline.NonObjectFieldsRaise | MovePipeline.py:40-49 | card fields that are JSON but not an object raise after the read, and no move is issued |
| MovePipeline.ResultReportsStageBeforeMove | MovePipeline.py:65-76 | the record echoes `etapa`, `contact_id` and `card_id` with the category and stage read before any move, whatever the move's reply; only fields that are JSON but not an object raise |

## Left out

- The HTTP layer is not part of this model (webhook_receiver.py). That covers routing, the header token check, `request.is_json`, `jsonify` and `abort`, and how the two components are composed there.
- Configuration read from the environment is left out. The card defaults (`CARD_STAGE_ID`, `CARD_CATEGORY_ID`, `CARD_ASSIGNED_BY_ID`) are the parameter `Config`.
- The webhook URL, `CPF_FIELD`, `CARD_ENTITY_TYPE_ID` and the `LOG` flag are the same on every call. They are passed to the CRM client but left out of the trace entries.
- Logging and `print` are left out. They have no effect on results or calls.
- The CRM client's own behaviour (`utils.bitrixUtils`) is not part of this model. Each kind of lookup has one fixed reply per run, which is an input. Network failures inside the client are visible only through those replies.
- JSON floats, arrays and nested objects are not modelled as payload or card values. Payload keys the processor never reads are not represented.
- `obterCampos` is taken to return JSON text. The non-string branch at VerifyAndCreateData.py:57 is not modelled. Neither is `json.loads` on a non-string at MovePipeline.py:40, which raises a `TypeError` that the `except` does not catch.
- The card-field reply is three-way (`Crm.FieldsReply`): text that is not JSON, JSON that is not an object, or an object. In `process_webhook_data` both failures raise, the first in `json.loads`, the second in `.get`. In `exibir_info_pipeline` only the first is caught (MovePipeline.py:49). JSON that is not an object makes `.get` raise an `AttributeError` at MovePipeline.py:43, which escapes before any move (`NonObjectFieldsRaise`).
- The reply that lists the state field's options is reduced to an optional list of (`VALUE`, `ID`) pairs:
  - a falsy or non-dictionary reply is no list;
  - missing nested keys give the empty list;
  - option entries that are not dictionaries are not modelled.
- An exception escaping either function is the single outcome `Raised`, without its type or message. Three causes are modelled: card fields that are not JSON, card fields that are JSON but not an object, and `.strip()` on a truthy non-string `ADDRESS_1`.
- An address reply that is truthy but not a dictionary is not modelled. `.get` on it raises at VerifyAndCreateData.py:92. `Crm.AddressReply` holds only a falsy reply or a record.
- An option reply whose entry for the state field is present but not a dictionary (for example `null`) is not modelled. `.get("items")` on it raises at VerifyAndCreateData.py:75, and at :143. An `items` value that is not a list is not modelled either.
- Python integers are unbounded, and so are the model's. No width applies.
- Pending: its own contract states only that every entry is eligible and carries the payload's value. That every eligible tracked field is present is proved for the three tracked fields in `UpdateSetFillsOnlyEmptyFields`.
- UpdateCalls: its own contract states only that the earlier calls are kept. Which calls it adds is proved in separate lemmas: `UpdateCallsReadOptionsWhenStatePending`, `UpdateCallsSendOneUpdate` and `UpdateCallsOnlyReadAndUpdate`. As ensures clauses of the function, these facts would enter every proof that mentions it and push those proofs past the resource limit.
