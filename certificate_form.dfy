/** The certificate form: five inputs, each wired to one field of the record,
    whose change handler builds a new record with that one field replaced. */
module CertificateForm {
  import opened CertificateRecord

  /** handleChange(field, value): the record passed to onChange, a copy of
      data with field set to value (records are values, so data itself is
      untouched). */
  function HandleChange(data: CertificateData, field: Field, value: string): (r: CertificateData)
    ensures Get(r, field) == value
    ensures forall f :: f != field ==> Get(r, f) == Get(data, f)
  {
    match field
    case RecipientName => data.(recipientName := value)
    case CourseName => data.(courseName := value)
    case CompletionDate => data.(completionDate := value)
    case IssuerName => data.(issuerName := value)
    case IssuerTitle => data.(issuerTitle := value)
  }

  /** Setting the same field to the same value twice is setting it once. */
  lemma HandleChangeIdempotent(data: CertificateData, field: Field, value: string)
    ensures HandleChange(HandleChange(data, field, value), field, value) == HandleChange(data, field, value)
  {
    var once := HandleChange(data, field, value);
    FieldwiseEqual(HandleChange(once, field, value), once);
  }

  /** The later of two edits to one field wins. */
  lemma HandleChangeLastWins(data: CertificateData, field: Field, v: string, w: string)
    ensures HandleChange(HandleChange(data, field, v), field, w) == HandleChange(data, field, w)
  {
    FieldwiseEqual(HandleChange(HandleChange(data, field, v), field, w), HandleChange(data, field, w));
  }

  /** Edits to two different fields do not interfere. */
  lemma HandleChangeCommutes(data: CertificateData, f: Field, v: string, g: Field, w: string)
    requires f != g
    ensures HandleChange(HandleChange(data, f, v), g, w) == HandleChange(HandleChange(data, g, w), f, v)
  {
    FieldwiseEqual(HandleChange(HandleChange(data, f, v), g, w), HandleChange(HandleChange(data, g, w), f, v));
  }

  /** Writing back a field's own value gives the same record. */
  lemma HandleChangeUnchanged(data: CertificateData, field: Field)
    ensures HandleChange(data, field, Get(data, field)) == data
  {
    FieldwiseEqual(HandleChange(data, field, Get(data, field)), data);
  }

  /** The five inputs in form order, as the field each one shows and edits. */
  const Inputs: seq<Field> := [RecipientName, CourseName, CompletionDate, IssuerName, IssuerTitle]

  /** The value input k shows. */
  function InputValue(data: CertificateData, k: nat): string
    requires k < |Inputs|
  {
    Get(data, Inputs[k])
  }

  /** The onChange handler of input k with the typed value. */
  function EditInput(data: CertificateData, k: nat, value: string): CertificateData
    requires k < |Inputs|
  {
    HandleChange(data, Inputs[k], value)
  }

  /** Each of the five inputs routes to its own field, and every field has one. */
  lemma InputsRouteToDistinctFields()
    ensures forall i, j :: 0 <= i < j < |Inputs| ==> Inputs[i] != Inputs[j]
    ensures forall f :: f in Inputs
    ensures forall k :: 0 <= k < |Inputs| ==>
      Inputs[k].Key() == ["recipientName", "courseName", "completionDate", "issuerName", "issuerTitle"][k]
  {
    forall f ensures f in Inputs {
      match f
      case RecipientName => assert Inputs[0] == f;
      case CourseName => assert Inputs[1] == f;
      case CompletionDate => assert Inputs[2] == f;
      case IssuerName => assert Inputs[3] == f;
      case IssuerTitle => assert Inputs[4] == f;
    }
  }

  /** Typing into input k shows the value in input k and in no other. */
  lemma EditShowsOnlyInItsInput(data: CertificateData, k: nat, value: string)
    requires k < |Inputs|
    ensures InputValue(EditInput(data, k, value), k) == value
    ensures forall j :: 0 <= j < |Inputs| && j != k ==>
      InputValue(EditInput(data, k, value), j) == InputValue(data, j)
  {
    InputsRouteToDistinctFields();
  }
}
