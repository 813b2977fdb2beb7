# Receipt verification of the teos misbehaviour tool, in Dafny

The misbehaviour tool of The Eye of Satoshi (a Lightning watchtower) decides
whether a tower's receipts hold up. Its inputs are a user id, a tower id, the
tower's registration receipt, the tower's appointment receipt, the appointment,
and the user's signature over the appointment. `check_receipts` performs three
signature checks (the second and third recover a key from a signature; the
mechanism of the first, `RegistrationReceipt::verify`, is not part of this
model):

1. the registration receipt verifies against the tower;
2. the user's signature recovers to the user over the appointment's encoding;
3. the appointment receipt's signature recovers to the tower over the bytes of
   the user's signature.

If any of the three fails, it rejects with `ReceiptVerificationFailed`. Only
after that does it check that the receipt's start block lies in the closed
subscription window. If it does not, it rejects with
`AppointmentOutsideSubscription`. Otherwise it returns `Ok(true)`.

The model is pure, as the source is:

- `options.dfy` holds `Option`.
- `utf8.dfy` holds `str::as_bytes` as UTF-8 encoding, with a decoder and their
  round trip.
- `teos_common.dfy` holds the identities and the receipts. It also holds
  `Primitives`: the cryptographic recovery, `RegistrationReceipt::verify` and
  `Appointment::to_vec`. Their code is not part of this model, so each is a
  function parameter. `Tool` and `ToolTests` assume no property of them. The
  lemmas of `CountersignFinding` explicitly assume `Binding` of the recovery.
- `tool.dfy` holds the verdict and its properties. One definition,
  `CheckReceiptsOver`, takes the tower recovery's message as a parameter. The
  as-written check and the corrected check are its two instances.
- `tool_tests.dfy` holds the two unit-test scenarios, for all keys, receipts
  and appointments on which the three signature checks pass. The tests' own
  countersignature is treated in `countersign_finding.dfy`.
- `countersign_finding.dfy` holds the finding below.

Every `unwrap()` in the code is modelled as an explicit `Panicked` outcome, not
as a precondition. There are three:

- the recovery in `check_signature`;
- the missing appointment-receipt signature;
- the tower recovery.

## Model

| member | source | states |
|---|---|---|
| `Tool.CheckSignature` | misbehaviour_tool/backend/src/tool.rs:12-19 | panics exactly when recovery over the appointment's bytes fails; otherwise never returns `Err`; returns `Ok(true)` exactly when the recovered key is the user's key |
| `Tool.Decide` | misbehaviour_tool/backend/src/tool.rs:43-65 | never `Ok(false)`; `ReceiptVerificationFailed` whenever one of the three checks is false, whatever the block heights; `AppointmentOutsideSubscription` exactly when all three hold and the start block is outside [start, expiry]; `Ok(true)` exactly when all three hold and it is inside |
| `Tool.CheckReceiptsOver` | misbehaviour_tool/backend/src/tool.rs:21-66 | the body of `check_receipts` with the tower recovery's message as a parameter: panics exactly when one of the three unwraps fails; never `Ok(false)`; `Ok(true)` exactly when the three checks pass and the block is in the window; `ReceiptVerificationFailed` whenever it does not panic and a check fails; `AppointmentOutsideSubscription` exactly when the checks pass and the block is outside |
| `Tool.CheckReceipts` | misbehaviour_tool/backend/src/tool.rs:21-66 | panics exactly when one of the three unwraps fails; never `Ok(false)`; `Ok(true)` exactly when all three signature checks pass and the start block is in the closed window; `ReceiptVerificationFailed` whenever it does not panic and a signature check fails, so signature failure has precedence over the window; `AppointmentOutsideSubscription` exactly when all signatures pass and the block is outside the window |
| `Tool.WindowClosedAtBothEnds` | misbehaviour_tool/backend/src/tool.rs:48-49 | with valid signatures, a start block equal to the subscription start, or equal to the expiry, gives `Ok(true)` |
| `Tool.JustOutsideWindowRejected` | misbehaviour_tool/backend/src/tool.rs:48-62 | with valid signatures, the block before the start and the block after the expiry give `AppointmentOutsideSubscription` |
| `Tool.AppointmentOnlyInUserCheck` | misbehaviour_tool/backend/src/tool.rs:31-36 | two appointments on which `check_signature` agrees give the same verdict, so the tower's countersignature check does not depend on the appointment |
| `Tool.EmptyWindowAcceptsNothing` | misbehaviour_tool/backend/src/tool.rs:48-49 | a registration whose start is after its expiry accepts no appointment |
| `Utf8.AsBytes` | misbehaviour_tool/backend/src/tool.rs:35 | the bytes of a string number between one and four per character, exactly one per character for ASCII text |
| `Utf8.FromUtf8AsBytes` | misbehaviour_tool/backend/src/tool.rs:35 | decoding the UTF-8 bytes of any string gives the string back |
| `Utf8.AsBytesInjective` | misbehaviour_tool/backend/src/tool.rs:34-36 | distinct user signatures give distinct messages to the tower recovery |
| `ToolTests.CheckReceiptsValidScenario` | misbehaviour_tool/backend/src/tool.rs:93-110 | with all three signature checks passing and a window longer than one block, a start block one past the subscription start gives `Ok(true)` |
| `ToolTests.CheckReceiptsInvalidScenario` | misbehaviour_tool/backend/src/tool.rs:131-147 | with all three signature checks passing, a start block one past the expiry gives `Err(AppointmentOutsideSubscription)` |
| `CountersignFinding.HonestCountersignatureRejected` | misbehaviour_tool/backend/src/tool.rs:34-36 | take a binding scheme, where one signature recovers to one key over at most one message, and a tower that signed the receipt's canonical encoding: the third check fails and the verdict is never `Ok(true)`, whatever the start block |
| `CountersignFinding.CountersignCounterexample` | misbehaviour_tool/backend/src/tool.rs:34-36 | on a concrete binding scheme with honest signers, the as-written check refuses an in-window bundle with `ReceiptVerificationFailed`; the corrected check accepts it, and it reports the out-of-window bundle as `AppointmentOutsideSubscription` |
| `CountersignFinding.CountersignaturePinsUserSignature` | misbehaviour_tool/backend/src/tool.rs:34-36 | under a binding scheme, one tower signature passes the as-written third check for at most one user signature |
| `CountersignFinding.CheckReceiptsCanonical` | misbehaviour_tool/backend/src/tool.rs:21-66 | corrected check: panics at the same three unwraps, with the tower recovery over the receipt's canonical encoding; never `Ok(false)`; `ReceiptVerificationFailed` whenever it does not panic and a check fails; `Ok(true)` exactly when the registration is signed, the user signed the appointment, the tower signed the receipt's canonical encoding, and the start block is in the window; `AppointmentOutsideSubscription` exactly when those signatures hold and the block is outside |

## Left out

- No shown file maps the appointment's locator to a transaction, fetches it or
  compares its bytes, so no blockchain check is modelled.
- The code has no malformed-signature error. Its error type has only
  `ReceiptVerificationFailed` and `AppointmentOutsideSubscription`, and an
  unparsable signature or a failed recovery panics in `unwrap()`. The model
  follows the code with its `Panicked` outcome.
- Public-key recovery, `RegistrationReceipt::verify` and `Appointment::to_vec`
  are parameters of the model (`Primitives`). Their code is in teos-common,
  and the modules `cryptography`, `receipts` and `appointment` of
  teos-common are not part of this model. So the registration receipt's fields
  other than the window and the signature (the user id and the available slots)
  do not appear. Only `verify` reads them.
- `AppointmentReceipt::to_vec`, the message the tower's `sign` signs, lives in
  teos-common's receipts module, which is not part of this model. The model
  (`CountersignFinding.ReceiptBytes`) lays it out as the bytes of the user's
  signature, then the start block as a big-endian `u32`. The finding uses only
  that this encoding is longer than the signature's bytes.
- `UserId::serialize` and `UserId::deserialize` (teos-common/src/lib.rs:19-28)
  are left out. They wrap secp256k1 key encoding, whose code is not visible.
- The `println!` logging in `check_receipts` and the tests is left out. It has
  no effect on the verdict.
- The HTTP endpoint (misbehaviour_tool/backend/src/api.rs), the demonstration
  entry point (main.rs), the browser script and teos/src/lib.rs are left out.
  They only call `check_receipts`, print, or declare modules.
- Random key and receipt generation in the tests is left out. The scenario
  lemmas quantify over all keys and receipts on which the three signature
  checks pass. They take the third check's passing as a premise. The tests'
  `app_receipt.sign` (tool.rs:97) signs the receipt's encoding, and that does
  not make the third check pass. `CountersignFinding` covers the tests' actual
  setup. The condition that the random registration window is longer than one
  block becomes a requires of `ToolTests.CheckReceiptsValidScenario`.
- Idempotence needs no lemma. Every member is a mathematical function, so equal
  inputs give equal verdicts.
- Neither the code nor the model compares the appointment receipt's
  `user_signature` field with the `user_signature` argument.

## Findings

| source | as written | input that shows it | evidently intended | confidence | as-written member | corrected member |
|---|---|---|---|---|---|---|
| misbehaviour_tool/backend/src/tool.rs:34-36 | the tower's key is recovered from the appointment receipt's signature over `user_signature.as_bytes()` only | the tower signs the receipt with `app_receipt.sign` (tool.rs:97), that is, over its canonical encoding. With user key `[1,1]`, tower key `[1,2]`, appointment bytes `[7]` and window `[0,10]`, the in-window receipt (start block 1) is refused with `ReceiptVerificationFailed`. The receipt with start block 11 is refused for the same reason, not as outside the subscription | recover over the appointment receipt's canonical encoding, which is the message the tower signs | not executed; medium (the receipt encoding comes from a module that is not part of this model) | `CountersignFinding.HonestCountersignatureRejected`, `CountersignFinding.CountersignCounterexample` | `CountersignFinding.CheckReceiptsCanonical` |
