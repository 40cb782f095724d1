/** The visa preview dialog (src/components/visas/VisaPreviewDialog.tsx): the cleaning of the
    WhatsApp number the visa is shared to, the empty-number guard, and the PDF file name. */
module VisaPreview {
  import opened Collections

  predicate IsDigit(c: char) { '0' <= c <= '9' }

  predicate AllDigits(s: string) { forall i :: 0 <= i < |s| ==> IsDigit(s[i]) }

  /** `s.replace(/\D/g, '')`: the digits of `s`, in order. */
  function DigitsOf(s: string): (r: string)
    ensures AllDigits(r)
    ensures IsSubsequence(r, s)
    ensures forall c :: IsDigit(c) ==> multiset(r)[c] == multiset(s)[c]
  {
    Filter(s, IsDigit)
  }

  /** A string of digits is its own digit string. */
  lemma DigitsOfDigits(s: string)
    requires AllDigits(s)
    ensures DigitsOf(s) == s
  {
    FilterAll(s, IsDigit);
  }

  /** The number the main sharing path opens: the input's digits, with a `2` (the Egyptian
      country code's first digit) put in front unless they already start with `2`. */
  function WhatsAppNumber(input: string): string
  {
    var d := DigitsOf(input);
    if |d| > 0 && d[0] == '2' then d else "2" + d
  }

  /** The main path's cleaning, step by step as the dialog does it. */
  method CleanNumber(input: string) returns (clean: string)
    ensures clean == WhatsAppNumber(input)
    ensures AllDigits(clean) && |clean| > 0 && clean[0] == '2'
  {
    clean := DigitsOf(input);
    if |clean| > 0 && clean[0] == '0' {
      clean := "2" + clean;
    }
    if !(|clean| > 0 && clean[0] == '2') {
      clean := "2" + clean;
    }
  }

  /** The cleaned number is digits only, starts with `2` and so is never empty. */
  lemma WhatsAppNumberShape(input: string)
    ensures AllDigits(WhatsAppNumber(input))
    ensures |WhatsAppNumber(input)| > 0 && WhatsAppNumber(input)[0] == '2'
  {
  }

  /** A local number starting with `0` gets exactly one `2` in front; one already starting with
      `2` is kept as it is. */
  lemma {:induction false} WhatsAppNumberPrefix(input: string)
    requires AllDigits(input) && |input| > 0
    ensures input[0] == '0' ==> WhatsAppNumber(input) == "2" + input
    ensures input[0] == '2' ==> WhatsAppNumber(input) == input
  {
    DigitsOfDigits(input);
  }

  /** The agency's first contact number, as the sharing text prints it. */
  const AgencyNumber := "01119452522"

  /** The agency's number is a local number of digits. */
  lemma AgencyNumberIsLocal()
    ensures AllDigits(AgencyNumber) && |AgencyNumber| > 0 && AgencyNumber[0] == '0'
    ensures "2" + AgencyNumber == "201119452522"
  {
  }

  /** That number becomes `201119452522`. */
  lemma WhatsAppNumberExample()
    ensures WhatsAppNumber(AgencyNumber) == "201119452522"
  {
    AgencyNumberIsLocal();
    WhatsAppNumberPrefix(AgencyNumber);
  }

  /** Cleaning an already cleaned number changes nothing. */
  lemma {:induction false} WhatsAppNumberIdempotent(input: string)
    ensures WhatsAppNumber(WhatsAppNumber(input)) == WhatsAppNumber(input)
  {
    var w := WhatsAppNumber(input);
    DigitsOfDigits(w);
  }

  /** The number the error path opens: only a leading `0` is given a `2` in front. */
  function FallbackNumber(input: string): string
  {
    var d := DigitsOf(input);
    if |d| > 0 && d[0] == '0' then "2" + d else d
  }

  /** The error path's cleaning, step by step. */
  method CleanFallbackNumber(input: string) returns (clean: string)
    ensures clean == FallbackNumber(input)
    ensures AllDigits(clean)
  {
    clean := DigitsOf(input);
    if |clean| > 0 && clean[0] == '0' {
      clean := "2" + clean;
    }
  }

  /** The two paths agree exactly when the digits start with `0` or `2`. */
  lemma FallbackAgreement(input: string)
    ensures WhatsAppNumber(input) == FallbackNumber(input) <==>
            var d := DigitsOf(input); |d| > 0 && (d[0] == '0' || d[0] == '2')
  {
    var d := DigitsOf(input);
    if |d| > 0 && d[0] == '0' {
      assert WhatsAppNumber(input) == "2" + d;
      assert FallbackNumber(input) == "2" + d;
    } else if |d| > 0 && d[0] == '2' {
    } else {
      assert |WhatsAppNumber(input)| == |FallbackNumber(input)| + 1;
    }
  }

  /** For example `5` becomes `25` on the main path but stays `5` on the error path. */
  lemma FallbackDiffers()
    ensures WhatsAppNumber("5") == "25" && FallbackNumber("5") == "5"
  {
    DigitsOfDigits("5");
  }

  /** The outcome of the share action: refused for an empty number, handed to the browser's
      own share sheet, or a WhatsApp link opened for a number. */
  datatype ShareOutcome = MissingNumber | SharedNatively | OpenedWhatsApp(number: string)

  /** The share action's number handling. An empty input is refused before anything is
      rendered or shared. Otherwise `nativeShare` says whether the browser offers to share the
      rendered image and `failed` whether rendering or sharing threw: a throw opens the link
      for the error path's number, a share sheet takes the image, and otherwise the link is
      opened for the main path's number. */
  method ShareWhatsApp(whatsappNumber: string, nativeShare: bool, failed: bool)
    returns (outcome: ShareOutcome)
    ensures outcome.MissingNumber? <==> whatsappNumber == ""
    ensures outcome.SharedNatively? <==> whatsappNumber != "" && nativeShare && !failed
    ensures outcome.OpenedWhatsApp? && !failed ==> outcome.number == WhatsAppNumber(whatsappNumber)
    ensures outcome.OpenedWhatsApp? && failed ==> outcome.number == FallbackNumber(whatsappNumber)
  {
    if whatsappNumber == "" {
      return MissingNumber;
    }
    var clean := CleanNumber(whatsappNumber);
    if failed {
      var fallback := CleanFallbackNumber(whatsappNumber);
      outcome := OpenedWhatsApp(fallback);
    } else if nativeShare {
      outcome := SharedNatively;
    } else {
      outcome := OpenedWhatsApp(clean);
    }
  }

  /** The name of the exported PDF: `visa-`, the visa number, `.pdf`. */
  function PdfFileName(visaNumber: string): (name: string)
    ensures |name| == |visaNumber| + 9
    ensures name[..5] == "visa-" && name[|name| - 4..] == ".pdf"
    ensures name[5..|name| - 4] == visaNumber
  {
    "visa-" + visaNumber + ".pdf"
  }

  /** Different visa numbers give different file names. */
  lemma PdfFileNameInjective(a: string, b: string)
    requires PdfFileName(a) == PdfFileName(b)
    ensures a == b
  {
    assert a == PdfFileName(a)[5..|PdfFileName(a)| - 4];
  }
}
