/**
 * The `chanCreationError` enumeration of faucet.go and its `String()` method.
 * The enumeration is a `uint8`; codes 0 to 12 have names and fixed messages,
 * every other byte is rendered as its decimal digits.
 */
module ErrorCodes {

  /** Go's `type chanCreationError uint8`. */
  newtype ChanCreationError = x: int | 0 <= x < 0x100

  const NoError: ChanCreationError := 0
  const InvalidAddress: ChanCreationError := 1
  const NotConnected: ChanCreationError := 2
  const ChanAmountNotNumber: ChanCreationError := 3
  const ChannelTooLarge: ChanCreationError := 4
  const ChannelTooSmall: ChanCreationError := 5
  const PushIncorrect: ChanCreationError := 6
  const ChannelOpenFail: ChanCreationError := 7
  const HaveChannel: ChanCreationError := 8
  const HavePendingChannel: ChanCreationError := 9
  const ErrorGeneratingInvoice: ChanCreationError := 10
  const InvoiceTimeNotElapsed: ChanCreationError := 11
  const InvoiceAmountTooHigh: ChanCreationError := 12

  /** The smallest channel the faucet extends; it only appears in a message. */
  const MinChannelSize: nat := 50000

  /** True for the codes that have a name (and a case of their own in String()). */
  predicate IsNamed(c: ChanCreationError) {
    c <= InvoiceAmountTooHigh
  }

  predicate IsDigit(ch: char) {
    '0' <= ch <= '9'
  }

  predicate AllDigits(s: string) {
    forall i :: 0 <= i < |s| ==> IsDigit(s[i])
  }

  function DigitChar(d: nat): (ch: char)
    requires d < 10
    ensures IsDigit(ch) && DigitValue(ch) == d
  {
    ('0' as int + d) as char
  }

  function DigitValue(ch: char): (d: nat)
    requires IsDigit(ch)
    ensures d < 10
  {
    ch as int - '0' as int
  }

  /**
   * Decimal rendering of a natural number, as fmt's `%v` and `%d` verbs print
   * an unsigned integer: at least one digit, digits only, no leading zero.
   */
  function FormatDecimal(n: nat): (s: string)
    ensures |s| >= 1 && AllDigits(s)
    ensures s[0] == '0' ==> n == 0
    decreases n
  {
    if n < 10 then [DigitChar(n)] else FormatDecimal(n / 10) + [DigitChar(n % 10)]
  }

  /** The value of a string of decimal digits; the reference that FormatDecimal is checked against. */
  function ParseDecimal(s: string): nat
    requires AllDigits(s)
    decreases |s|
  {
    if s == [] then 0 else ParseDecimal(s[..|s| - 1]) * 10 + DigitValue(s[|s| - 1])
  }

  /** Reading back the digits that FormatDecimal prints gives the number again. */
  lemma {:induction false} ParseFormatDecimal(n: nat)
    ensures ParseDecimal(FormatDecimal(n)) == n
    decreases n
  {
    if n >= 10 {
      var prefix := FormatDecimal(n / 10);
      var s := prefix + [DigitChar(n % 10)];
      assert s[..|s| - 1] == prefix;
      ParseFormatDecimal(n / 10);
    }
  }

  /** The human-readable message of an error code, shown by the page templates. */
  function ErrorString(c: ChanCreationError): string
  {
    if c == NoError then ""
    else if c == InvalidAddress then "Not a valid public key"
    else if c == NotConnected then "Faucet cannot connect to this node"
    else if c == ChanAmountNotNumber then "Amount must be a number"
    else if c == ChannelTooLarge then "Amount is too large"
    else if c == ChannelTooSmall then "Minimum channel size is is " + FormatDecimal(MinChannelSize) + " DCR"
    else if c == PushIncorrect then "Initial Balance is incorrect"
    else if c == ChannelOpenFail then "Faucet is not able to open a channel with this node"
    else if c == HaveChannel then "Faucet already has an active channel with this node"
    else if c == HavePendingChannel then "Faucet already has a pending channel with this node"
    else if c == ErrorGeneratingInvoice then "Error generating Invoice"
    else if c == InvoiceTimeNotElapsed then "Please wait until you can generate a new invoice"
    else if c == InvoiceAmountTooHigh then "Invoice amount too high"
    else FormatDecimal(c as nat)
  }

  /** The ChannelTooSmall message spells out the minimum channel size. */
  lemma ChannelTooSmallMessage()
    ensures ErrorString(ChannelTooSmall) == "Minimum channel size is is 50000 DCR"
  {
  }

  /** Three digits suffice for any byte. */
  lemma {:induction false} FormatByteLength(n: nat)
    requires n < 0x100
    ensures |FormatDecimal(n)| <= 3
  {
    if n >= 10 {
      assert |FormatDecimal(n / 10)| <= 2 by {
        if n / 10 >= 10 {
          assert |FormatDecimal(n / 100)| == 1;
        }
      }
    }
  }

  /** The length of each named code's message, as a plain table of numbers. */
  function NamedMessageLength(c: ChanCreationError): nat
    requires IsNamed(c)
  {
    if c == NoError then 0
    else if c == InvalidAddress then 22
    else if c == NotConnected then 34
    else if c == ChanAmountNotNumber then 23
    else if c == ChannelTooLarge then 19
    else if c == ChannelTooSmall then 36
    else if c == PushIncorrect then 28
    else if c == ChannelOpenFail then 51
    else if c == HaveChannel then 51
    else if c == HavePendingChannel then 51
    else if c == ErrorGeneratingInvoice then 24
    else if c == InvoiceTimeNotElapsed then 48
    else 23
  }

  lemma ShortMessageLengths()
    ensures |ErrorString(InvalidAddress)| == 22 && |ErrorString(ChanAmountNotNumber)| == 23
    ensures |ErrorString(ChannelTooLarge)| == 19 && |ErrorString(InvoiceAmountTooHigh)| == 23
  {
  }

  lemma MiddleMessageLengths()
    ensures |ErrorString(NotConnected)| == 34 && |ErrorString(ChannelTooSmall)| == 36
    ensures |ErrorString(PushIncorrect)| == 28 && |ErrorString(ErrorGeneratingInvoice)| == 24
  {
    ChannelTooSmallMessage();
  }

  lemma LongMessageLengths()
    ensures |ErrorString(ChannelOpenFail)| == 51 && |ErrorString(HaveChannel)| == 51
  {
  }

  lemma LongerMessageLengths()
    ensures |ErrorString(HavePendingChannel)| == 51 && |ErrorString(InvoiceTimeNotElapsed)| == 48
  {
  }

  /** The table of lengths is the lengths of the messages. */
  lemma NamedMessageLengthIsLength(c: ChanCreationError)
    requires IsNamed(c)
    ensures |ErrorString(c)| == NamedMessageLength(c)
  {
    ShortMessageLengths();
    MiddleMessageLengths();
    LongMessageLengths();
    LongerMessageLengths();
  }

  /** Only the two messages of length 23 and the three of length 51 share a length. */
  lemma NamedMessagesOfEqualLength(a: ChanCreationError, b: ChanCreationError)
    requires IsNamed(a) && IsNamed(b) && a != b
    requires NamedMessageLength(a) == NamedMessageLength(b)
    ensures || (a in {ChanAmountNotNumber, InvoiceAmountTooHigh} && b in {ChanAmountNotNumber, InvoiceAmountTooHigh})
            || (a in {ChannelOpenFail, HaveChannel, HavePendingChannel} && b in {ChannelOpenFail, HaveChannel, HavePendingChannel})
  {
  }

  /** The two messages of length 23 differ in their last character. */
  lemma AmountMessagesDiffer()
    ensures ErrorString(ChanAmountNotNumber) != ErrorString(InvoiceAmountTooHigh)
  {
    assert ErrorString(ChanAmountNotNumber)[22] == 'r';
    assert ErrorString(InvoiceAmountTooHigh)[22] == 'h';
  }

  /** The three messages of length 51 differ at position 27. */
  lemma ChannelMessagesDiffer()
    ensures ErrorString(ChannelOpenFail) != ErrorString(HaveChannel)
    ensures ErrorString(ChannelOpenFail) != ErrorString(HavePendingChannel)
    ensures ErrorString(HaveChannel) != ErrorString(HavePendingChannel)
  {
    assert ErrorString(ChannelOpenFail)[27] == 'a';
    assert ErrorString(HaveChannel)[27] == 'e';
    assert ErrorString(HavePendingChannel)[27] == 'g';
  }

  /** Named codes have pairwise different messages. */
  lemma NamedMessagesDistinct(a: ChanCreationError, b: ChanCreationError)
    requires IsNamed(a) && IsNamed(b) && a != b
    ensures ErrorString(a) != ErrorString(b)
  {
    NamedMessageLengthIsLength(a);
    NamedMessageLengthIsLength(b);
    if NamedMessageLength(a) == NamedMessageLength(b) {
      NamedMessagesOfEqualLength(a, b);
      AmountMessagesDiffer();
      ChannelMessagesDiffer();
    }
  }

  /**
   * Every byte has a message of its own: String() is injective over the whole
   * `uint8` range, as the enumeration's doc comment promises.
   */
  lemma ErrorStringInjective(a: ChanCreationError, b: ChanCreationError)
    ensures ErrorString(a) == ErrorString(b) ==> a == b
  {
    if ErrorString(a) == ErrorString(b) && a != b {
      if IsNamed(a) && IsNamed(b) {
        NamedMessagesDistinct(a, b);
      } else if IsNamed(a) {
        NamedMessageLengthIsLength(a);
        FormatByteLength(b as nat);
      } else if IsNamed(b) {
        NamedMessageLengthIsLength(b);
        FormatByteLength(a as nat);
      } else {
        ParseFormatDecimal(a as nat);
        ParseFormatDecimal(b as nat);
      }
    }
  }

  /** String() returns the empty string for NoError and for no other code. */
  lemma ErrorStringEmptyIffNoError(c: ChanCreationError)
    ensures |ErrorString(c)| == 0 <==> c == NoError
  {
    if IsNamed(c) {
      NamedMessageLengthIsLength(c);
    }
  }

  /** An unnamed code's message is its decimal value and can be read back. */
  lemma UnnamedMessageIsDecimal(c: ChanCreationError)
    requires !IsNamed(c)
    ensures AllDigits(ErrorString(c)) && ParseDecimal(ErrorString(c)) == c as nat
  {
    ParseFormatDecimal(c as nat);
  }
}
