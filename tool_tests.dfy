/**
  The two scenarios of the unit tests in misbehaviour_tool/backend/src/tool.rs,
  stated for all keys, receipts and appointments on which the three signature
  checks pass. The lemmas take the passing third check as a premise: the
  tests' `app_receipt.sign` signs the receipt's encoding, which does not produce
  that (module CountersignFinding treats the tests' actual setup).
*/
module ToolTests {
  import opened Options
  import opened Utf8
  import opened TeosCommon
  import opened Tool

  /**
    `test_check_receipts_valid`: with the three checks passing, a start block one
    after the subscription start gives `Ok`. The scenario needs a window longer than one
    block, which the test's random registration receipt must have for it to pass.
  */
  lemma CheckReceiptsValidScenario(
    p: Primitives, userId: UserId, towerId: TowerId, regReceipt: RegistrationReceipt,
    appointment: Appointment, userSignature: string, towerSignature: string)
    requires regReceipt.subscriptionStart < regReceipt.subscriptionExpiry
    requires RegistrationSigned(p, regReceipt, towerId)
    requires UserSigned(p, appointment, userSignature, userId)
    requires RecoversTo(p, AsBytes(userSignature), towerSignature, towerId.pk)
    ensures CheckReceipts(p, userId, towerId, regReceipt,
              AppointmentReceipt(userSignature, regReceipt.subscriptionStart + 1, Some(towerSignature)),
              appointment, userSignature) == Returned(Ok(true))
  {
  }

  /**
    `test_check_receipts_invalid`: with the three checks passing, a start block one
    after the subscription expiry gives an error, and it is `AppointmentOutsideSubscription`.
    The `+ 1` of the test would overflow a `u32` at the largest expiry, hence the bound.
  */
  lemma CheckReceiptsInvalidScenario(
    p: Primitives, userId: UserId, towerId: TowerId, regReceipt: RegistrationReceipt,
    appointment: Appointment, userSignature: string, towerSignature: string)
    requires regReceipt.subscriptionExpiry + 1 < 0x1_0000_0000
    requires RegistrationSigned(p, regReceipt, towerId)
    requires UserSigned(p, appointment, userSignature, userId)
    requires RecoversTo(p, AsBytes(userSignature), towerSignature, towerId.pk)
    ensures CheckReceipts(p, userId, towerId, regReceipt,
              AppointmentReceipt(userSignature, regReceipt.subscriptionExpiry + 1, Some(towerSignature)),
              appointment, userSignature) == Returned(Err(AppointmentOutsideSubscription))
  {
  }
}
