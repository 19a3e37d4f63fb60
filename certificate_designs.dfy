/** The closed set of certificate designs and the table of selectable cards. */
module CertificateDesigns {

  datatype Design = Classic | Modern | Elegant | Corporate
  {
    /** The string value the design has at run time. */
    function Id(): string {
      match this
      case Classic => "classic"
      case Modern => "modern"
      case Elegant => "elegant"
      case Corporate => "corporate"
    }
  }

  /** One card of the design picker. */
  datatype DesignOption = DesignOption(id: Design, name: string, description: string, preview: string)

  /** The picker's cards, in display order. */
  const Designs: seq<DesignOption> := [
    DesignOption(Classic, "Classic Blue", "Traditional blue design with golden accents",
      "bg-gradient-to-br from-blue-50 to-indigo-100 border-blue-900"),
    DesignOption(Modern, "Modern Green", "Clean modern design with green theme",
      "bg-gradient-to-br from-green-50 to-emerald-100 border-green-900"),
    DesignOption(Elegant, "Elegant Purple", "Sophisticated purple design",
      "bg-gradient-to-br from-purple-50 to-violet-100 border-purple-900"),
    DesignOption(Corporate, "Corporate Gray", "Professional gray design for business",
      "bg-gradient-to-br from-gray-50 to-slate-100 border-gray-900")
  ]

  /** A card is drawn as selected when its id equals the selected design's. */
  predicate IsSelected(selectedDesign: Design, card: DesignOption) {
    selectedDesign.Id() == card.id.Id()
  }

  /** Distinct designs have distinct run-time values. */
  lemma IdInjective(a: Design, b: Design)
    ensures a.Id() == b.Id() ==> a == b
  {
  }

  /** Where a design's card stands in the table. */
  function Position(d: Design): nat {
    match d
    case Classic => 0
    case Modern => 1
    case Elegant => 2
    case Corporate => 3
  }

  /** The table lists the four designs, each once, in the order
      classic, modern, elegant, corporate. */
  lemma TableListsEachDesignOnce()
    ensures |Designs| == 4
    ensures Designs[0].id == Classic && Designs[1].id == Modern
    ensures Designs[2].id == Elegant && Designs[3].id == Corporate
    ensures forall i, j :: 0 <= i < j < |Designs| ==> Designs[i].id != Designs[j].id
    ensures forall d: Design :: Position(d) < |Designs| && Designs[Position(d)].id == d
  {
  }

  /** Whatever the selected design, exactly one card is drawn as selected. */
  lemma ExactlyOneCardSelected(selectedDesign: Design) returns (k: nat)
    ensures k < |Designs| && IsSelected(selectedDesign, Designs[k])
    ensures forall j :: 0 <= j < |Designs| && IsSelected(selectedDesign, Designs[j]) ==> j == k
  {
    TableListsEachDesignOnce();
    k := Position(selectedDesign);
    forall j | 0 <= j < |Designs| && IsSelected(selectedDesign, Designs[j]) ensures j == k {
      IdInjective(selectedDesign, Designs[j].id);
    }
  }
}
