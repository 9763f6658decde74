/** The user-facing warning chosen for an error thrown while minting
    (`_getWarningMesssage` in src/utils/minting-utils.ts). */
module WarningMessages {
  import opened Wrappers
  import opened JsString

  const SoldOut: string := "All mints have been sold out."
  const NotStarted: string := "Minting period hasn't started yet."
  const InsufficientFunds: string := "Insufficient funds to mint. Please fund your wallet."
  const MintFailed: string := "Minting failed! Please try again!"

  /** The four strings the mapping is written to return. */
  const Warnings: set<string> := {SoldOut, NotStarted, InsufficientFunds, MintFailed}

  /** What the mapping reads of a thrown value: the program-error text `msg` that
      the distribution program's client attaches to structured errors, the numeric
      `code` next to it, and the generic `message` every error carries. */
  datatype ThrownError = ThrownError(msg: Option<string>, code: Option<int>, message: string)

  /** `if (error.msg)`: the property is present and is a non-empty string. */
  predicate HasMsg(e: ThrownError) {
    e.msg.Some? && e.msg.value != ""
  }

  /** The mapping as written. Each text test is the truthiness of an `indexOf`
      result, so it passes for every message that does NOT start with the code. */
  function WarningMessage(e: ThrownError): (m: string)
    ensures m in Warnings
    ensures m != InsufficientFunds
  {
    if HasMsg(e) then
      if e.code == Some(311) then SoldOut
      else if e.code == Some(312) then NotStarted
      else MintFailed
    else if Truthy(IndexOf(e.message, "0x138")) then MintFailed
    else if Truthy(IndexOf(e.message, "0x137")) then SoldOut
    else if Truthy(IndexOf(e.message, "0x135")) then InsufficientFunds
    else MintFailed
  }

  /** A structured error is mapped by its code alone: 311 is "sold out", 312 is
      "not started", anything else (including a missing code) is the generic failure. */
  lemma StructuredErrorWarning(e: ThrownError)
    requires HasMsg(e)
    ensures WarningMessage(e) == SoldOut <==> e.code == Some(311)
    ensures WarningMessage(e) == NotStarted <==> e.code == Some(312)
    ensures WarningMessage(e) == MintFailed <==> e.code != Some(311) && e.code != Some(312)
  {
  }

  /** Without `msg`, every message that does not start with "0x138" (in particular
      every message that does not contain it at all) is the generic failure. */
  lemma UnstructuredWarningNotPrefixed(e: ThrownError)
    requires !HasMsg(e)
    ensures WarningMessage(e) == MintFailed <==> !("0x138" <= e.message)
  {
  }

  /** Without `msg`, a message that starts with "0x138" is reported as sold out:
      it cannot also start with "0x137", so the second test passes. */
  lemma UnstructuredWarningPrefixed(e: ThrownError)
    requires !HasMsg(e)
    ensures WarningMessage(e) == SoldOut <==> "0x138" <= e.message
  {
  }

  /** Only three of the four strings are reachable, and "not started" only
      through a structured error. */
  lemma InsufficientFundsUnreachable(e: ThrownError)
    ensures WarningMessage(e) in {SoldOut, NotStarted, MintFailed}
    ensures WarningMessage(e) == NotStarted ==> HasMsg(e) && e.code == Some(312)
  {
  }

  /** The mapping differs from a "substring present" reading of the error
      codes: the transport text of an insufficient-funds failure gets the
      generic warning, and a text that starts with the 0x138 code is called
      sold out. */
  lemma SubstringReadingDiffers()
    ensures WarningMessage(ThrownError(None, None, "custom program error: 0x135")) == MintFailed
    ensures Contains("custom program error: 0x135", "0x135")
    ensures WarningMessage(ThrownError(None, None, "0x138")) == SoldOut
    ensures !Contains("0x138", "0x137")
  {
    var t := "custom program error: 0x135";
    assert OccursAt(t, "0x135", 22);
    UnstructuredWarningNotPrefixed(ThrownError(None, None, t));
    UnstructuredWarningPrefixed(ThrownError(None, None, "0x138"));
    assert IndexOf("0x138", "0x137") == -1;
  }
}
