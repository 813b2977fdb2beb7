/**
  The third signature check of `check_receipts` recovers the tower's key over the
  bytes of the user's signature alone, while the tower signs the appointment
  receipt's canonical encoding: the user's signature followed by the start block
  as four big-endian bytes. Under any signature scheme in which a signature
  recovers to one key over at most one message, an honestly countersigned receipt
  therefore fails the check. This module states that, exhibits it on a concrete
  scheme, and gives the corrected check with its acceptance property.
*/
module CountersignFinding {
  import opened Options
  import opened Utf8
  import opened TeosCommon
  import opened Tool

  /** `u32::to_be_bytes`. */
  function BigEndian32(n: U32): (r: Bytes)
    ensures |r| == 4
    ensures (r[0] as int) * 0x100_0000 + (r[1] as int) * 0x1_0000 + (r[2] as int) * 0x100 + (r[3] as int) == n
  {
    [n / 0x100_0000, (n / 0x1_0000) % 0x100, (n / 0x100) % 0x100, n % 0x100]
  }

  /** The appointment receipt's canonical encoding, the message the tower signs. */
  function ReceiptBytes(appReceipt: AppointmentReceipt): (r: Bytes)
    ensures |r| == |AsBytes(appReceipt.userSignature)| + 4
    ensures r[..|AsBytes(appReceipt.userSignature)|] == AsBytes(appReceipt.userSignature)
  {
    AsBytes(appReceipt.userSignature) + BigEndian32(appReceipt.startBlock)
  }

  /** The tower's signature recovers to the tower over the receipt's canonical encoding. */
  predicate CanonicallyCountersigned(p: Primitives, appReceipt: AppointmentReceipt, towerId: TowerId) {
    CountersignedOver(p, appReceipt, ReceiptBytes(appReceipt), towerId)
  }

  /**
    The idealisation of recoverable signatures used here: one signature recovers
    to the same key over two messages only if the messages are equal. Recovery
    over a hashed message, as in ECDSA, meets it only up to hash collisions.
  */
  ghost predicate Binding(p: Primitives) {
    forall m1, m2, sig :: p.recoverPk(m1, sig).Some? && p.recoverPk(m1, sig) == p.recoverPk(m2, sig) ==> m1 == m2
  }

  /**
    As written: when the tower signed the receipt's canonical encoding and the
    scheme is binding, the third check fails, so the verdict is never `Ok(true)`;
    if nothing panics it is `ReceiptVerificationFailed`, whatever the start block.
  */
  lemma HonestCountersignatureRejected(
    p: Primitives, userId: UserId, towerId: TowerId, regReceipt: RegistrationReceipt,
    appReceipt: AppointmentReceipt, appointment: Appointment)
    requires Binding(p)
    requires CanonicallyCountersigned(p, appReceipt, towerId)
    ensures !TowerCountersigned(p, appReceipt, appReceipt.userSignature, towerId)
    ensures CheckReceipts(p, userId, towerId, regReceipt, appReceipt, appointment, appReceipt.userSignature)
              != Returned(Ok(true))
    ensures UnwrapsSucceed(p, appReceipt, appointment, appReceipt.userSignature) ==>
              CheckReceipts(p, userId, towerId, regReceipt, appReceipt, appointment, appReceipt.userSignature)
                == Returned(Err(ReceiptVerificationFailed))
  {
    var sigBytes := AsBytes(appReceipt.userSignature);
    assert ReceiptBytes(appReceipt) != sigBytes by {
      assert |ReceiptBytes(appReceipt)| != |sigBytes|;
    }
  }

  /**
    Whatever its flaw, the as-written third check binds the tower to one user
    signature: under a binding scheme, one tower signature passes it for at most
    one user signature, because distinct strings have distinct bytes.
  */
  lemma CountersignaturePinsUserSignature(
    p: Primitives, appReceipt: AppointmentReceipt, s1: string, s2: string, towerId: TowerId)
    requires Binding(p)
    requires TowerCountersigned(p, appReceipt, s1, towerId)
    requires TowerCountersigned(p, appReceipt, s2, towerId)
    ensures s1 == s2
  {
    var sig := appReceipt.signature.value;
    assert p.recoverPk(AsBytes(s1), sig).Some? && p.recoverPk(AsBytes(s1), sig) == p.recoverPk(AsBytes(s2), sig);
    AsBytesInjective(s1, s2);
  }

  /**
    The corrected `check_receipts`: the same body, with the tower recovery over
    the appointment receipt's canonical encoding. It panics at the same three
    unwraps, still reports a failed signature check before the window, and
    accepts exactly the bundles whose three signatures were made over what each
    signer signs and whose start block lies in the window.
  */
  function CheckReceiptsCanonical(
    p: Primitives, userId: UserId, towerId: TowerId, regReceipt: RegistrationReceipt,
    appReceipt: AppointmentReceipt, appointment: Appointment, userSignature: string): (r: Outcome<Result<bool>>)
    ensures r.Panicked? <==> !UnwrapsSucceedOver(p, appReceipt, appointment, userSignature, ReceiptBytes(appReceipt))
    ensures r != Returned(Ok(false))
    ensures r == Returned(Ok(true)) <==>
              && RegistrationSigned(p, regReceipt, towerId)
              && UserSigned(p, appointment, userSignature, userId)
              && CanonicallyCountersigned(p, appReceipt, towerId)
              && InSubscription(regReceipt, appReceipt)
    ensures UnwrapsSucceedOver(p, appReceipt, appointment, userSignature, ReceiptBytes(appReceipt)) &&
            !(&& RegistrationSigned(p, regReceipt, towerId)
              && UserSigned(p, appointment, userSignature, userId)
              && CanonicallyCountersigned(p, appReceipt, towerId))
            ==> r == Returned(Err(ReceiptVerificationFailed))
    ensures r == Returned(Err(AppointmentOutsideSubscription)) <==>
              && RegistrationSigned(p, regReceipt, towerId)
              && UserSigned(p, appointment, userSignature, userId)
              && CanonicallyCountersigned(p, appReceipt, towerId)
              && !InSubscription(regReceipt, appReceipt)
  {
    CheckReceiptsOver(p, userId, towerId, regReceipt, appReceipt, appointment, userSignature, ReceiptBytes(appReceipt))
  }

  // A concrete binding scheme. A signature is the signer's key byte followed by
  // the message, one character per byte; recovering over any other message yields
  // a key built from that message, as recovering a secp256k1 signature over the
  // wrong message yields some unrelated key.

  /** One character per byte. */
  function Chars(m: Bytes): (s: string)
    ensures |s| == |m|
    ensures forall i :: 0 <= i < |m| ==> s[i] as int == m[i]
  {
    seq(|m|, i requires 0 <= i < |m| => m[i] as char)
  }

  function ToySign(key: Byte, m: Bytes): string {
    [key as char] + Chars(m)
  }

  function ToyRecover(m: Bytes, sig: string): Option<PublicKey> {
    if |sig| == |m| + 1 && sig[1..] == Chars(m) && (sig[0] as int) < 256 then Some(PublicKey([1, sig[0] as int]))
    else Some(PublicKey([0] + m))
  }

  function Toy(): Primitives {
    Primitives(
      (m: Bytes, sig: string) => ToyRecover(m, sig),
      (r: RegistrationReceipt, t: TowerId) => true,
      (a: Appointment) => a.locator + a.encryptedBlob)
  }

  /** The concrete scheme meets the binding idealisation, so the lemma above applies to it. */
  lemma ToyIsBinding()
    ensures Binding(Toy())
  {
    forall m1: Bytes, m2: Bytes, sig: string |
      Toy().recoverPk(m1, sig).Some? && Toy().recoverPk(m1, sig) == Toy().recoverPk(m2, sig)
      ensures m1 == m2
    {
      var k1, k2 := ToyRecover(m1, sig).value.compressed, ToyRecover(m2, sig).value.compressed;
      if k1[0] == 1 {
        var c1, c2 := Chars(m1), Chars(m2);
        assert c1 == c2;
        assert forall i :: 0 <= i < |m1| ==> m1[i] == c1[i] as int == c2[i] as int == m2[i];
      } else {
        assert k1 == [0] + m1 && k2 == [0] + m2;
        assert m1 == k1[1..] && m2 == k2[1..];
      }
    }
  }

  /**
    The input that shows it. The user signs the appointment, the tower signs the
    receipt's canonical encoding. As written the bundle is refused with
    `ReceiptVerificationFailed`, both with the start block inside the window (so
    `test_check_receipts_valid` fails) and one past the expiry (so
    `test_check_receipts_invalid` passes, but not for the window). The corrected
    check accepts the first and reports the second as outside the subscription.
  */
  lemma CountersignCounterexample()
    ensures var p, userId, towerId := Toy(), UserId(PublicKey([1, 1])), TowerId(PublicKey([1, 2]));
            var regReceipt := RegistrationReceipt(0, 10, Some("r"));
            var appointment := Appointment([7], []);
            var userSignature := ToySign(1, [7]);
            var inside := AppointmentReceipt(userSignature, 1, Some(ToySign(2, [1, 7, 0, 0, 0, 1])));
            var outside := AppointmentReceipt(userSignature, 11, Some(ToySign(2, [1, 7, 0, 0, 0, 11])));
            && CheckReceipts(p, userId, towerId, regReceipt, inside, appointment, userSignature)
                 == Returned(Err(ReceiptVerificationFailed))
            && CheckReceiptsCanonical(p, userId, towerId, regReceipt, inside, appointment, userSignature)
                 == Returned(Ok(true))
            && CheckReceipts(p, userId, towerId, regReceipt, outside, appointment, userSignature)
                 == Returned(Err(ReceiptVerificationFailed))
            && CheckReceiptsCanonical(p, userId, towerId, regReceipt, outside, appointment, userSignature)
                 == Returned(Err(AppointmentOutsideSubscription))
  {
    var userSignature := ToySign(1, [7]);
    assert userSignature == [1 as char, 7 as char];
    assert AsBytes(userSignature) == [1, 7] by {
      assert AsBytes(userSignature[1..]) == [7];
    }
    assert BigEndian32(1) == [0, 0, 0, 1];
    assert BigEndian32(11) == [0, 0, 0, 11];
    assert Chars([7]) == [7 as char];
    assert Toy().recoverPk([7], userSignature) == Some(PublicKey([1, 1]));
    var inside := ToySign(2, [1, 7, 0, 0, 0, 1]);
    var outside := ToySign(2, [1, 7, 0, 0, 0, 11]);
    assert |inside| == 7 && |outside| == 7;
    assert [0] + [1, 7] == [0, 1, 7];
    assert ToyRecover([1, 7], inside) == Some(PublicKey([0, 1, 7]));
    assert Toy().recoverPk([1, 7], inside) == Some(PublicKey([0, 1, 7]));
    assert Toy().recoverPk([1, 7], outside) == Some(PublicKey([0, 1, 7]));
    assert inside[1..] == Chars([1, 7, 0, 0, 0, 1]);
    assert outside[1..] == Chars([1, 7, 0, 0, 0, 11]);
  }
}
