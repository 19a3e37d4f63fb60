/** The certificate preview: a pure derivation of what is shown from the
    record and the selected design, and the download button's behaviour. */
module CertificatePreview {
  import opened CertificateRecord
  import opened CertificateDesigns
  import opened Notifications

  /** The six style slots of a design. */
  datatype DesignClasses = DesignClasses(
    background: string,
    border: string,
    title: string,
    name: string,
    course: string,
    seal: string)

  const ClassicClasses := DesignClasses(
    "bg-gradient-to-br from-blue-50 to-indigo-100", "border-blue-900", "text-blue-900",
    "text-blue-900 border-blue-300", "text-blue-800", "bg-blue-900")
  const ModernClasses := DesignClasses(
    "bg-gradient-to-br from-green-50 to-emerald-100", "border-green-900", "text-green-900",
    "text-green-900 border-green-300", "text-green-800", "bg-green-900")
  const ElegantClasses := DesignClasses(
    "bg-gradient-to-br from-purple-50 to-violet-100", "border-purple-900", "text-purple-900",
    "text-purple-900 border-purple-300", "text-purple-800", "bg-purple-900")
  const CorporateClasses := DesignClasses(
    "bg-gradient-to-br from-gray-50 to-slate-100", "border-gray-900", "text-gray-900",
    "text-gray-900 border-gray-400", "text-gray-800", "bg-gray-900")

  /** getDesignClasses: the switch on the design's run-time value; a value
      none of the cases names falls through to the classic styles. */
  function GetDesignClasses(design: string): DesignClasses {
    if design == "classic" then ClassicClasses
    else if design == "modern" then ModernClasses
    else if design == "elegant" then ElegantClasses
    else if design == "corporate" then CorporateClasses
    else ClassicClasses
  }

  /** The colour family each design is drawn in. */
  function Colour(d: Design): string {
    match d
    case Classic => "blue"
    case Modern => "green"
    case Elegant => "purple"
    case Corporate => "gray"
  }

  /** The shade of the name's underline: one step lighter on the gray design. */
  function UnderlineShade(d: Design): string {
    if d == Corporate then "400" else "300"
  }

  /** The styles of a design are drawn in one colour family. */
  predicate InColourFamily(c: DesignClasses, k: string, shade: string) {
    && c.border == "border-" + k + "-900"
    && c.title == "text-" + k + "-900"
    && c.course == "text-" + k + "-800"
    && c.seal == "bg-" + k + "-900"
    && UnderlinedIn(c.name, c.title, k, shade)
  }

  /** The name's style: the title's text colour plus an underline of the
      given shade of the colour. */
  predicate UnderlinedIn(name: string, title: string, k: string, shade: string) {
    name == title + " border-" + k + "-" + shade
  }

  /** The lookup on a design's own value picks that design's styles. */
  lemma LookupOfDesign(d: Design)
    ensures GetDesignClasses(d.Id()) ==
      match d
      case Classic => ClassicClasses
      case Modern => ModernClasses
      case Elegant => ElegantClasses
      case Corporate => CorporateClasses
  {
  }

  /** Every design's styles are drawn in its one colour family. */
  lemma ClassesInColourFamily(d: Design)
    ensures InColourFamily(GetDesignClasses(d.Id()), Colour(d), UnderlineShade(d))
  {
    LookupOfDesign(d);
    match d
    case Classic => ClassicIsBlue();
    case Modern => ModernIsGreen();
    case Elegant => ElegantIsPurple();
    case Corporate => CorporateIsGray();
  }

  lemma ClassicIsBlue()
    ensures InColourFamily(ClassicClasses, "blue", "300")
  {
    ClassicUnderlineBlue();
  }

  lemma ClassicUnderlineBlue()
    ensures UnderlinedIn(ClassicClasses.name, ClassicClasses.title, "blue", "300")
  {
  }

  lemma ModernIsGreen()
    ensures InColourFamily(ModernClasses, "green", "300")
  {
    ModernUnderlineGreen();
  }

  lemma ModernUnderlineGreen()
    ensures UnderlinedIn(ModernClasses.name, ModernClasses.title, "green", "300")
  {
  }

  lemma ElegantIsPurple()
    ensures InColourFamily(ElegantClasses, "purple", "300")
  {
    ElegantUnderlinePurple();
  }

  lemma ElegantUnderlinePurple()
    ensures UnderlinedIn(ElegantClasses.name, ElegantClasses.title, "purple", "300")
  {
  }

  lemma CorporateIsGray()
    ensures InColourFamily(CorporateClasses, "gray", "400")
  {
    CorporateUnderlineGray();
  }

  lemma CorporateUnderlineGray()
    ensures UnderlinedIn(CorporateClasses.name, CorporateClasses.title, "gray", "400")
  {
  }

  /** The four designs have four different colour families, so four
      different style tuples. */
  lemma DesignsLookDifferent(a: Design, b: Design)
    requires a != b
    ensures Colour(a) != Colour(b)
    ensures GetDesignClasses(a.Id()) != GetDesignClasses(b.Id())
  {
    ClassesInColourFamily(a);
    ClassesInColourFamily(b);
    assert GetDesignClasses(a.Id()).seal != GetDesignClasses(b.Id()).seal;
  }

  /** A value that is none of the four designs gets the classic styles. */
  lemma UnknownDesignIsClassic(design: string)
    requires forall d: Design :: design != d.Id()
    ensures GetDesignClasses(design) == GetDesignClasses(Classic.Id())
  {
    assert design != Modern.Id() && design != Elegant.Id() && design != Corporate.Id();
  }

  /** A card previews the background and border of the certificate drawn
      in the card's design. */
  predicate CardMatchesCertificate(card: DesignOption) {
    var c := GetDesignClasses(card.id.Id());
    card.preview == c.background + " " + c.border
  }

  /** Every card of the picker matches the certificate of its design. */
  lemma CardPreviewsMatchCertificates(k: nat)
    requires k < |Designs|
    ensures CardMatchesCertificate(Designs[k])
  {
    LookupOfDesign(Designs[k].id);
    if k == 0 {
      ClassicCard();
    } else if k == 1 {
      ModernCard();
    } else if k == 2 {
      ElegantCard();
    } else {
      CorporateCard();
    }
  }

  lemma ClassicCard()
    ensures Designs[0].preview == ClassicClasses.background + " " + ClassicClasses.border
  {
    var preview := Designs[0].preview;
    assert preview == "bg-gradient-to-br from-blue-50 to-indigo-100 border-blue-900";
  }

  lemma ModernCard()
    ensures Designs[1].preview == ModernClasses.background + " " + ModernClasses.border
  {
    var preview := Designs[1].preview;
    assert preview == "bg-gradient-to-br from-green-50 to-emerald-100 border-green-900";
  }

  lemma ElegantCard()
    ensures Designs[2].preview == ElegantClasses.background + " " + ElegantClasses.border
  {
    var preview := Designs[2].preview;
    assert preview == "bg-gradient-to-br from-purple-50 to-violet-100 border-purple-900";
  }

  lemma CorporateCard()
    ensures Designs[3].preview == CorporateClasses.background + " " + CorporateClasses.border
  {
    var preview := Designs[3].preview;
    assert preview == "bg-gradient-to-br from-gray-50 to-slate-100 border-gray-900";
  }

  /** formatDate: the empty date formats as the empty string; any other text
      goes to the runtime's long-form, locale-dependent formatter. */
  function FormatDate(dateString: string, toLocaleLong: string -> string): string {
    if dateString == "" then "" else toLocaleLong(dateString)
  }

  /** value || placeholder for a text value. */
  function OrPlaceholder(value: string, placeholder: string): string {
    if value != "" then value else placeholder
  }

  /** The download button is enabled when recipient and course are filled in. */
  predicate DownloadEnabled(data: CertificateData) {
    !(data.recipientName == "" || data.courseName == "")
  }

  /** What the preview shows. */
  datatype CertificateView = CertificateView(
    classes: DesignClasses,
    recipient: string,
    course: string,
    date: string,
    issuer: string,
    issuerTitle: string,
    downloadEnabled: bool,
    hintShown: bool)

  function Render(data: CertificateData, design: Design, toLocaleLong: string -> string): CertificateView {
    CertificateView(
      GetDesignClasses(design.Id()),
      OrPlaceholder(data.recipientName, "Recipient Name"),
      OrPlaceholder(data.courseName, "Course/Achievement Name"),
      OrPlaceholder(FormatDate(data.completionDate, toLocaleLong), "Date"),
      OrPlaceholder(data.issuerName, "Issuer Name"),
      OrPlaceholder(data.issuerTitle, "Title"),
      DownloadEnabled(data),
      data.recipientName == "" || data.courseName == "")
  }

  /** Each text of the certificate is the record's value when that is
      non-empty and its placeholder otherwise; an empty date shows "Date". */
  lemma RenderShowsDataOrPlaceholder(data: CertificateData, design: Design, toLocaleLong: string -> string)
    ensures var v := Render(data, design, toLocaleLong);
      && (data.recipientName != "" ==> v.recipient == data.recipientName)
      && (data.recipientName == "" ==> v.recipient == "Recipient Name")
      && (data.courseName != "" ==> v.course == data.courseName)
      && (data.courseName == "" ==> v.course == "Course/Achievement Name")
      && (data.issuerName != "" ==> v.issuer == data.issuerName)
      && (data.issuerName == "" ==> v.issuer == "Issuer Name")
      && (data.issuerTitle != "" ==> v.issuerTitle == data.issuerTitle)
      && (data.issuerTitle == "" ==> v.issuerTitle == "Title")
      && (data.completionDate == "" ==> v.date == "Date")
      && v.classes == GetDesignClasses(design.Id())
  {
  }

  /** The template is always visually complete: no text slot is ever blank. */
  lemma RenderNeverBlank(data: CertificateData, design: Design, toLocaleLong: string -> string)
    ensures var v := Render(data, design, toLocaleLong);
      v.recipient != "" && v.course != "" && v.date != "" && v.issuer != "" && v.issuerTitle != ""
  {
  }

  /** Download is enabled exactly when both required fields are filled in,
      and the hint is shown exactly when it is not. */
  lemma DownloadIffRequiredFields(data: CertificateData, design: Design, toLocaleLong: string -> string)
    ensures var v := Render(data, design, toLocaleLong);
      && (v.downloadEnabled <==> data.recipientName != "" && data.courseName != "")
      && (v.hintShown <==> !v.downloadEnabled)
  {
  }

  /** Clicking download: a disabled button does nothing; an enabled one with
      the certificate mounted only raises the download notice. The record is
      an input only, so nothing about it changes. */
  function DownloadCertificate(data: CertificateData, mounted: bool): (toasts: seq<Toast>)
    ensures toasts != [] ==> DownloadEnabled(data) && mounted
    ensures DownloadEnabled(data) && mounted ==> toasts == [DownloadFeature]
    ensures forall t :: t in toasts ==> !t.Destructive() && t.Title() == "Download Feature"
  {
    if !DownloadEnabled(data) || !mounted then [] else [DownloadFeature]
  }
}
