/** The texts shown when a chat request fails. */
module ChatErrors {
  import opened JsString

  // Written as two literals so that the verifier can look at its first characters.
  const NetworkErrorText: string := "Network error: " + "Could not connect to the server."
  const InvalidSearchTypeMessage: string := "Invalid search type"

  /** The text that `ErrorText` makes of `InvalidSearchTypeMessage` (see `InvalidSearchTypeText`). */
  const InvalidSearchTypeError: string := "Error: " + InvalidSearchTypeMessage

  /**
   * The banner and bot-message text for a failed send, from the thrown error's
   * message: a transport failure (its message mentions "fetch") gets the fixed
   * network text; any other error keeps its message behind an "Error: " prefix.
   */
  function ErrorText(message: string): (r: string)
    ensures r == NetworkErrorText <==> Contains(message, "fetch")
    ensures r != NetworkErrorText ==> |r| == 7 + |message| && r[..7] == "Error: " && r[7..] == message
  {
    if Contains(message, "fetch") then NetworkErrorText
    else
      var r := "Error: " + message;
      assert r[0] == 'E' && NetworkErrorText[0] == 'N';
      r
  }

  /** Different non-network errors are told apart: the message can be read back from the text. */
  lemma ErrorTextInjective(a: string, b: string)
    requires !Contains(a, "fetch") && !Contains(b, "fetch")
    requires ErrorText(a) == ErrorText(b)
    ensures a == b
  {
    assert a == ErrorText(a)[7..];
  }

  function DigitChar(d: nat): (c: char)
    requires d < 10
    ensures '0' <= c <= '9'
  {
    "0123456789"[d]
  }

  /** Decimal digits of `n`, as `${n}` prints a status code. */
  function Decimal(n: nat): (r: string)
    ensures r != []
    ensures forall i :: 0 <= i < |r| ==> '0' <= r[i] <= '9'
    ensures n == 0 ==> r == "0"
    ensures n > 0 ==> r[0] != '0'
    ensures |r| > 1 ==> r[0] != '0'
  {
    if n < 10 then [DigitChar(n)] else Decimal(n / 10) + [DigitChar(n % 10)]
  }

  /** Reads a string of decimal digits back as a number. */
  function ParseDecimal(s: string): nat
    requires forall i :: 0 <= i < |s| ==> '0' <= s[i] <= '9'
  {
    if s == [] then 0 else 10 * ParseDecimal(s[..|s| - 1]) + (s[|s| - 1] as int - '0' as int)
  }

  lemma DigitCharValue(d: nat)
    requires d < 10
    ensures DigitChar(d) as int - '0' as int == d
  {
  }

  /** The printed status code is the status code. */
  lemma {:induction false} DecimalRoundTrip(n: nat)
    ensures ParseDecimal(Decimal(n)) == n
  {
    var r := Decimal(n);
    if n < 10 {
      DigitCharValue(n);
    } else {
      DecimalRoundTrip(n / 10);
      DigitCharValue(n % 10);
      assert r[..|r| - 1] == Decimal(n / 10);
    }
  }

  /** The message of the error thrown for a response whose status is not 2xx. */
  function HttpErrorMessage(status: nat): (r: string)
    ensures |r| > 20 && r[..20] == "HTTP error! status: "
    ensures forall i :: 20 <= i < |r| ==> '0' <= r[i] <= '9'
    ensures ParseDecimal(r[20..]) == status
    ensures |r| > 21 ==> r[20] != '0'
  {
    var r := "HTTP error! status: " + Decimal(status);
    assert r[20..] == Decimal(status);
    DecimalRoundTrip(status);
    r
  }

  /** An HTTP failure is never reported as a network error: its text is "Error: HTTP error! status: N". */
  lemma HttpErrorNotNetwork(status: nat)
    ensures !Contains(HttpErrorMessage(status), "fetch")
    ensures ErrorText(HttpErrorMessage(status)) == "Error: " + HttpErrorMessage(status)
  {
    var m := HttpErrorMessage(status);
    assert forall i :: 0 <= i < |m| ==> m[i] != 'f' by {
      var d := Decimal(status);
      assert forall i :: 20 <= i < |m| ==> m[i] == d[i - 20];
    }
    AbsentLetterNotContained(m, "fetch");
  }

  /** A missing search type is reported as "Error: Invalid search type". */
  lemma InvalidSearchTypeText()
    ensures ErrorText(InvalidSearchTypeMessage) == InvalidSearchTypeError
  {
    assert 'f' !in InvalidSearchTypeMessage;
    AbsentLetterNotContained(InvalidSearchTypeMessage, "fetch");
  }
}
