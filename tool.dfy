/**
  The receipt-verification verdict of the misbehaviour tool
  (misbehaviour_tool/backend/src/tool.rs): three signature checks, then a
  closed-interval check of the appointment's start block against the
  subscription window.
*/
module Tool {
  import opened Options
  import opened Utf8
  import opened TeosCommon

  /** `enum ReceiptCheckError`. */
  datatype ReceiptCheckError = ReceiptVerificationFailed | AppointmentOutsideSubscription

  /** `Result<T, ReceiptCheckError>`. */
  datatype Result<T> = Ok(value: T) | Err(error: ReceiptCheckError)

  /** How a call ends: it returns a value, or it panics in an `unwrap()`. */
  datatype Outcome<T> = Returned(value: T) | Panicked

  /** First check: the tower signed the registration receipt. */
  predicate RegistrationSigned(p: Primitives, regReceipt: RegistrationReceipt, towerId: TowerId) {
    p.verifyRegistration(regReceipt, towerId)
  }

  /** Second check: the user's signature recovers to the user over the appointment's encoding. */
  predicate UserSigned(p: Primitives, appointment: Appointment, userSignature: string, userId: UserId) {
    RecoversTo(p, p.appointmentBytes(appointment), userSignature, userId.pk)
  }

  /**
    Third check, over a given message: the appointment receipt carries a
    signature and it recovers to the tower over `towerMessage`.
  */
  predicate CountersignedOver(p: Primitives, appReceipt: AppointmentReceipt, towerMessage: Bytes, towerId: TowerId) {
    appReceipt.signature.Some? && RecoversTo(p, towerMessage, appReceipt.signature.value, towerId.pk)
  }

  /**
    Third check, as the code performs it: the message is the bytes of the user's
    signature string. Neither the appointment nor the receipt's start block takes part.
  */
  predicate TowerCountersigned(p: Primitives, appReceipt: AppointmentReceipt, userSignature: string, towerId: TowerId) {
    CountersignedOver(p, appReceipt, AsBytes(userSignature), towerId)
  }

  predicate SignaturesValidOver(
    p: Primitives, userId: UserId, towerId: TowerId, regReceipt: RegistrationReceipt,
    appReceipt: AppointmentReceipt, appointment: Appointment, userSignature: string, towerMessage: Bytes)
  {
    && RegistrationSigned(p, regReceipt, towerId)
    && UserSigned(p, appointment, userSignature, userId)
    && CountersignedOver(p, appReceipt, towerMessage, towerId)
  }

  predicate SignaturesValid(
    p: Primitives, userId: UserId, towerId: TowerId, regReceipt: RegistrationReceipt,
    appReceipt: AppointmentReceipt, appointment: Appointment, userSignature: string)
  {
    SignaturesValidOver(p, userId, towerId, regReceipt, appReceipt, appointment, userSignature, AsBytes(userSignature))
  }

  /** None of the three `unwrap()` calls of the check meets a failure, the tower recovery being over `towerMessage`. */
  predicate UnwrapsSucceedOver(
    p: Primitives, appReceipt: AppointmentReceipt, appointment: Appointment, userSignature: string, towerMessage: Bytes)
  {
    && p.recoverPk(p.appointmentBytes(appointment), userSignature).Some?
    && appReceipt.signature.Some?
    && p.recoverPk(towerMessage, appReceipt.signature.value).Some?
  }

  predicate UnwrapsSucceed(p: Primitives, appReceipt: AppointmentReceipt, appointment: Appointment, userSignature: string) {
    UnwrapsSucceedOver(p, appReceipt, appointment, userSignature, AsBytes(userSignature))
  }

  /** The start block lies in the closed window [subscription start, subscription expiry]. */
  predicate InSubscription(regReceipt: RegistrationReceipt, appReceipt: AppointmentReceipt) {
    regReceipt.subscriptionStart <= appReceipt.startBlock <= regReceipt.subscriptionExpiry
  }

  /**
    `check_signature`: recovers a key from `signature` over the appointment's
    encoding and compares it with the user's key. It panics when recovery fails
    and otherwise never returns an error.
  */
  function CheckSignature(p: Primitives, appointment: Appointment, signature: string, userId: UserId): (r: Outcome<Result<bool>>)
    ensures r.Panicked? <==> p.recoverPk(p.appointmentBytes(appointment), signature).None?
    ensures r.Returned? ==> r.value.Ok?
    ensures r == Returned(Ok(true)) <==> UserSigned(p, appointment, signature, userId)
  {
    match p.recoverPk(p.appointmentBytes(appointment), signature)
    case None => Panicked
    case Some(recoveredId) => Returned(Ok(recoveredId == userId.pk))
  }

  /**
    The decision of `check_receipts` once the three checks are computed: any
    failed signature check is reported first; only then is the window checked.
  */
  function Decide(
    regReceiptCheck: bool, userSignatureCheck: bool, appReceiptCheck: bool,
    regReceipt: RegistrationReceipt, appReceipt: AppointmentReceipt): (r: Result<bool>)
    ensures r != Ok(false)
    ensures r == Ok(true) <==>
              regReceiptCheck && userSignatureCheck && appReceiptCheck && InSubscription(regReceipt, appReceipt)
    ensures !(regReceiptCheck && userSignatureCheck && appReceiptCheck) ==> r == Err(ReceiptVerificationFailed)
    ensures r == Err(AppointmentOutsideSubscription) <==>
              regReceiptCheck && userSignatureCheck && appReceiptCheck && !InSubscription(regReceipt, appReceipt)
  {
    if !regReceiptCheck || !userSignatureCheck || !appReceiptCheck then
      Err(ReceiptVerificationFailed)
    else
      var appointmentInSubscription :=
        appReceipt.startBlock >= regReceipt.subscriptionStart && appReceipt.startBlock <= regReceipt.subscriptionExpiry;
      if !appointmentInSubscription then Err(AppointmentOutsideSubscription)
      else Ok(true)
  }

  /**
    The body of `check_receipts` with the message of the tower recovery as a
    parameter: computes the three signature checks (panicking where the code
    unwraps a failure), then decides.
  */
  function CheckReceiptsOver(
    p: Primitives, userId: UserId, towerId: TowerId, regReceipt: RegistrationReceipt,
    appReceipt: AppointmentReceipt, appointment: Appointment, userSignature: string, towerMessage: Bytes): (r: Outcome<Result<bool>>)
    ensures r.Panicked? <==> !UnwrapsSucceedOver(p, appReceipt, appointment, userSignature, towerMessage)
    ensures r != Returned(Ok(false))
    ensures r == Returned(Ok(true)) <==>
              SignaturesValidOver(p, userId, towerId, regReceipt, appReceipt, appointment, userSignature, towerMessage) &&
              InSubscription(regReceipt, appReceipt)
    ensures UnwrapsSucceedOver(p, appReceipt, appointment, userSignature, towerMessage) &&
            !SignaturesValidOver(p, userId, towerId, regReceipt, appReceipt, appointment, userSignature, towerMessage)
            ==> r == Returned(Err(ReceiptVerificationFailed))
    ensures r == Returned(Err(AppointmentOutsideSubscription)) <==>
              SignaturesValidOver(p, userId, towerId, regReceipt, appReceipt, appointment, userSignature, towerMessage) &&
              !InSubscription(regReceipt, appReceipt)
  {
    var regReceiptCheck := p.verifyRegistration(regReceipt, towerId);
    match CheckSignature(p, appointment, userSignature, userId)
    case Panicked => Panicked
    case Returned(Err(e)) => Returned(Err(e))
    case Returned(Ok(userSignatureCheck)) =>
      match appReceipt.signature
      case None => Panicked
      case Some(towerSignature) =>
        match p.recoverPk(towerMessage, towerSignature)
        case None => Panicked
        case Some(recovered) =>
          var appReceiptCheck := TowerId(recovered) == towerId;
          Returned(Decide(regReceiptCheck, userSignatureCheck, appReceiptCheck, regReceipt, appReceipt))
  }

  /**
    `check_receipts` as written: the tower recovery runs over the bytes of
    `userSignature` (`user_signature.as_bytes()`), not over the appointment
    receipt's own encoding.
  */
  function CheckReceipts(
    p: Primitives, userId: UserId, towerId: TowerId, regReceipt: RegistrationReceipt,
    appReceipt: AppointmentReceipt, appointment: Appointment, userSignature: string): (r: Outcome<Result<bool>>)
    ensures r.Panicked? <==> !UnwrapsSucceed(p, appReceipt, appointment, userSignature)
    ensures r != Returned(Ok(false))
    ensures r == Returned(Ok(true)) <==>
              SignaturesValid(p, userId, towerId, regReceipt, appReceipt, appointment, userSignature) &&
              InSubscription(regReceipt, appReceipt)
    ensures UnwrapsSucceed(p, appReceipt, appointment, userSignature) &&
            !SignaturesValid(p, userId, towerId, regReceipt, appReceipt, appointment, userSignature)
            ==> r == Returned(Err(ReceiptVerificationFailed))
    ensures r == Returned(Err(AppointmentOutsideSubscription)) <==>
              SignaturesValid(p, userId, towerId, regReceipt, appReceipt, appointment, userSignature) &&
              !InSubscription(regReceipt, appReceipt)
  {
    CheckReceiptsOver(p, userId, towerId, regReceipt, appReceipt, appointment, userSignature, AsBytes(userSignature))
  }

  /** The window is closed at both ends: with valid signatures, its first and last blocks are accepted. */
  lemma WindowClosedAtBothEnds(
    p: Primitives, userId: UserId, towerId: TowerId, regReceipt: RegistrationReceipt,
    appointment: Appointment, userSignature: string, towerSignature: string)
    requires regReceipt.subscriptionStart <= regReceipt.subscriptionExpiry
    requires RegistrationSigned(p, regReceipt, towerId)
    requires UserSigned(p, appointment, userSignature, userId)
    requires RecoversTo(p, AsBytes(userSignature), towerSignature, towerId.pk)
    ensures CheckReceipts(p, userId, towerId, regReceipt,
              AppointmentReceipt(userSignature, regReceipt.subscriptionStart, Some(towerSignature)),
              appointment, userSignature) == Returned(Ok(true))
    ensures CheckReceipts(p, userId, towerId, regReceipt,
              AppointmentReceipt(userSignature, regReceipt.subscriptionExpiry, Some(towerSignature)),
              appointment, userSignature) == Returned(Ok(true))
  {
  }

  /** With valid signatures, the block just before the window and the block just after it are rejected as outside. */
  lemma JustOutsideWindowRejected(
    p: Primitives, userId: UserId, towerId: TowerId, regReceipt: RegistrationReceipt,
    appointment: Appointment, userSignature: string, towerSignature: string, startBlock: U32)
    requires startBlock + 1 == regReceipt.subscriptionStart || startBlock == regReceipt.subscriptionExpiry + 1
    requires RegistrationSigned(p, regReceipt, towerId)
    requires UserSigned(p, appointment, userSignature, userId)
    requires RecoversTo(p, AsBytes(userSignature), towerSignature, towerId.pk)
    ensures CheckReceipts(p, userId, towerId, regReceipt,
              AppointmentReceipt(userSignature, startBlock, Some(towerSignature)),
              appointment, userSignature) == Returned(Err(AppointmentOutsideSubscription))
  {
  }

  /**
    The appointment reaches the verdict only through the user-signature check:
    two appointments on which `check_signature` agrees give the same verdict, so
    the tower's countersignature check does not depend on the appointment.
  */
  lemma AppointmentOnlyInUserCheck(
    p: Primitives, userId: UserId, towerId: TowerId, regReceipt: RegistrationReceipt,
    appReceipt: AppointmentReceipt, a1: Appointment, a2: Appointment, userSignature: string)
    requires CheckSignature(p, a1, userSignature, userId) == CheckSignature(p, a2, userSignature, userId)
    ensures CheckReceipts(p, userId, towerId, regReceipt, appReceipt, a1, userSignature)
         == CheckReceipts(p, userId, towerId, regReceipt, appReceipt, a2, userSignature)
  {
  }

  /** A registration whose window is empty (start after expiry) accepts no appointment. */
  lemma EmptyWindowAcceptsNothing(
    p: Primitives, userId: UserId, towerId: TowerId, regReceipt: RegistrationReceipt,
    appReceipt: AppointmentReceipt, appointment: Appointment, userSignature: string)
    requires regReceipt.subscriptionStart > regReceipt.subscriptionExpiry
    ensures CheckReceipts(p, userId, towerId, regReceipt, appReceipt, appointment, userSignature) != Returned(Ok(true))
  {
  }
}
