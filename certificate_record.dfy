/** The five-field certificate record shared by every component. */
module CertificateRecord {

  datatype CertificateData = CertificateData(
    recipientName: string,
    courseName: string,
    completionDate: string,
    issuerName: string,
    issuerTitle: string)

  /** The keys of the record (TypeScript's keyof CertificateData). */
  datatype Field = RecipientName | CourseName | CompletionDate | IssuerName | IssuerTitle
  {
    /** The property name the key stands for. */
    function Key(): string {
      match this
      case RecipientName => "recipientName"
      case CourseName => "courseName"
      case CompletionDate => "completionDate"
      case IssuerName => "issuerName"
      case IssuerTitle => "issuerTitle"
    }
  }

  /** Property access data[field]. */
  function Get(data: CertificateData, field: Field): string {
    match field
    case RecipientName => data.recipientName
    case CourseName => data.courseName
    case CompletionDate => data.completionDate
    case IssuerName => data.issuerName
    case IssuerTitle => data.issuerTitle
  }

  /** The record with every field empty, as the application starts. */
  function Blank(): (data: CertificateData)
    ensures forall field :: Get(data, field) == ""
  {
    CertificateData("", "", "", "", "")
  }

  /** Distinct keys name distinct properties. */
  lemma KeysDistinct(f: Field, g: Field)
    ensures f.Key() == g.Key() ==> f == g
  {
  }

  /** A record is determined by the values of its five keys. */
  lemma FieldwiseEqual(a: CertificateData, b: CertificateData)
    requires forall field :: Get(a, field) == Get(b, field)
    ensures a == b
  {
    assert Get(a, RecipientName) == Get(b, RecipientName);
    assert Get(a, CourseName) == Get(b, CourseName);
    assert Get(a, CompletionDate) == Get(b, CompletionDate);
    assert Get(a, IssuerName) == Get(b, IssuerName);
    assert Get(a, IssuerTitle) == Get(b, IssuerTitle);
  }
}
