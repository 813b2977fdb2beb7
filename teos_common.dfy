/**
  The teos-common entities that the misbehaviour check reads, and the
  collaborators it calls whose code is not part of this model.
*/
module TeosCommon {
  import opened Options
  import opened Utf8

  /** Block heights are `u32` in teos. */
  type U32 = x: int | 0 <= x < 0x1_0000_0000

  /** A secp256k1 public key, by its compressed encoding: two keys are equal when their bytes are. */
  datatype PublicKey = PublicKey(compressed: Bytes)

  /** `UserId(pub PublicKey)`: equality is the key's equality (teos-common/src/lib.rs:16-17). */
  datatype UserId = UserId(pk: PublicKey)

  /** `TowerId(pub PublicKey)`, the tower's identity. */
  datatype TowerId = TowerId(pk: PublicKey)

  /** What the client asks the tower to watch: a breach locator and the encrypted penalty transaction. */
  datatype Appointment = Appointment(locator: Bytes, encryptedBlob: Bytes)

  /** The tower's proof of a paid subscription window, with the tower's signature once signed. */
  datatype RegistrationReceipt = RegistrationReceipt(
    subscriptionStart: U32,
    subscriptionExpiry: U32,
    signature: Option<string>)

  /** The tower's proof of having accepted an appointment, with its signature once signed. */
  datatype AppointmentReceipt = AppointmentReceipt(
    userSignature: string,
    startBlock: U32,
    signature: Option<string>)

  /**
    The functions the check calls but does not define, taken as parameters:
    `recoverPk` is `cryptography::recover_pk` (None where it returns `Err`),
    `verifyRegistration` is `RegistrationReceipt::verify`, and
    `appointmentBytes` is `Appointment::to_vec`.
  */
  datatype Primitives = Primitives(
    recoverPk: (Bytes, string) -> Option<PublicKey>,
    verifyRegistration: (RegistrationReceipt, TowerId) -> bool,
    appointmentBytes: Appointment -> Bytes)

  /** Recovery-based verification: `signature` over `message` recovers to `key`. */
  predicate RecoversTo(p: Primitives, message: Bytes, signature: string, key: PublicKey) {
    p.recoverPk(message, signature) == Some(key)
  }
}
