/**
 * `PromptPayQR`: decides whether a payment id can be drawn as a PromptPay QR
 * code. The id is stripped to its digits; 10 digits (a phone number), 13 (a
 * national id) or 15 (an e-wallet) count as PromptPay, any other length is
 * taken for a bank account number, which gets no code.
 */
module PromptPayQr {
  import opened Wrappers
  import opened Seqs

  /** The messages the component shows. */
  const NotFoundMessage := "ไม่พบข้อมูล"
  const BankNumberMessage := "เลขบัญชีธนาคารไม่รองรับการสร้าง QR"
  const BadFormatMessage := "รูปแบบไม่ถูกต้อง"

  /** What the `useMemo` computes: the payload, the error shown, and whether the id is a bank number. */
  datatype QrState = QrState(payload: Option<string>, error: Option<string>, isBankNum: bool)

  predicate IsDigit(c: char) {
    '0' <= c <= '9'
  }

  /** `id.replace(/[^0-9]/g, "")`. */
  function CleanId(id: string): string {
    Filter(id, IsDigit)
  }

  /** The lengths a PromptPay id can have. */
  predicate IsPromptPayLength(n: nat) {
    n == 10 || n == 13 || n == 15
  }

  /**
   * The `useMemo` body. `generate` stands for the payload library: `None`
   * when it throws, otherwise the payload for the cleaned id and the amount.
   */
  function Compute(id: Option<string>, generate: string -> Option<string>): (s: QrState)
    ensures id.None? || id.value == "" ==> s == QrState(None, Some(NotFoundMessage), false)
    ensures id.Some? && id.value != "" && !IsPromptPayLength(|CleanId(id.value)|) ==>
              s == QrState(None, Some(BankNumberMessage), true)
    ensures id.Some? && id.value != "" && IsPromptPayLength(|CleanId(id.value)|) ==>
              !s.isBankNum && (s.payload.Some? <==> s.error.None?)
              && (s.payload.Some? ==> s.payload == generate(CleanId(id.value)))
    ensures s.payload.Some? ==> id.Some? && IsPromptPayLength(|CleanId(id.value)|)
  {
    if id.None? || id.value == "" then QrState(None, Some(NotFoundMessage), false)
    else
      var cleanId := CleanId(id.value);
      if !IsPromptPayLength(|cleanId|) then QrState(None, Some(BankNumberMessage), true)
      else match generate(cleanId)
        case Some(qr) => QrState(Some(qr), None, false)
        case None => QrState(None, Some(BadFormatMessage), false)
  }

  /** What the component draws. */
  datatype View = Nothing | ErrorBox(message: string) | QrCode(payload: string)

  /**
   * A bank number draws nothing. A truthy error, or an empty or missing
   * payload (`!payload`), draws the error box with the error text, if any;
   * otherwise the code.
   */
  function Render(s: QrState): (v: View)
    ensures s.isBankNum <==> v == Nothing
    ensures v.QrCode? <==> !s.isBankNum && (s.error.None? || s.error.value == "")
                           && s.payload.Some? && s.payload.value != ""
    ensures v.QrCode? ==> s.payload == Some(v.payload)
    ensures v.ErrorBox? ==> v.message == s.error.GetOr("")
  {
    if s.isBankNum then Nothing
    else if (s.error.Some? && s.error.value != "") || s.payload.None? || s.payload.value == "" then ErrorBox(s.error.GetOr(""))
    else QrCode(s.payload.value)
  }

  /** The cleaned id is exactly the digits of the input, in their order. */
  lemma CleanIdDigits(id: string)
    ensures forall i :: 0 <= i < |CleanId(id)| ==> IsDigit(CleanId(id)[i])
    ensures forall i :: 0 <= i < |id| && IsDigit(id[i]) ==> id[i] in CleanId(id)
    ensures Subsequence(CleanId(id), id)
  {
    FilterIsSubsequence(id, IsDigit);
  }

  /** Cleaning twice is cleaning once. */
  lemma CleanIdIdempotent(id: string)
    ensures CleanId(CleanId(id)) == CleanId(id)
  {
    FilterAll(CleanId(id), IsDigit);
  }

  /** A payload is drawn only for an id whose digits have a PromptPay length. */
  lemma QrOnlyForPromptPay(id: Option<string>, generate: string -> Option<string>)
    ensures Render(Compute(id, generate)).QrCode? ==>
              id.Some? && IsPromptPayLength(|CleanId(id.value)|) && generate(CleanId(id.value)).Some?
  {
  }
}
