/** The personal-information step of the CV builder: six text fields, each
    changed on its own by `handleChange(field, value)`. */
module PersonalInfoStep {
  datatype PersonalInfo = PersonalInfo(
    fullName: string,
    email: string,
    phone: string,
    location: string,
    headline: string,
    summary: string)

  /** The keys `handleChange` is called with, one per input. */
  datatype Field = FullName | Email | Phone | Location | Headline | Summary

  const Empty := PersonalInfo("", "", "", "", "", "")

  function Get(d: PersonalInfo, f: Field): string
  {
    match f
    case FullName => d.fullName
    case Email => d.email
    case Phone => d.phone
    case Location => d.location
    case Headline => d.headline
    case Summary => d.summary
  }

  /** `{ ...data, [field]: value }`. */
  function HandleChange(d: PersonalInfo, f: Field, v: string): (r: PersonalInfo)
    ensures Get(r, f) == v
    ensures forall g :: g != f ==> Get(r, g) == Get(d, g)
  {
    match f
    case FullName => d.(fullName := v)
    case Email => d.(email := v)
    case Phone => d.(phone := v)
    case Location => d.(location := v)
    case Headline => d.(headline := v)
    case Summary => d.(summary := v)
  }

  // ---------------------------------------------------------------- properties

  /** Two records that agree on every field are the same record. */
  lemma SameFields(a: PersonalInfo, b: PersonalInfo)
    requires forall f :: Get(a, f) == Get(b, f)
    ensures a == b
  {
    assert Get(a, FullName) == Get(b, FullName);
    assert Get(a, Email) == Get(b, Email);
    assert Get(a, Phone) == Get(b, Phone);
    assert Get(a, Location) == Get(b, Location);
    assert Get(a, Headline) == Get(b, Headline);
    assert Get(a, Summary) == Get(b, Summary);
  }

  /** Setting a field to the value it has changes nothing. */
  lemma ChangeToSame(d: PersonalInfo, f: Field)
    ensures HandleChange(d, f, Get(d, f)) == d
  {
    SameFields(HandleChange(d, f, Get(d, f)), d);
  }

  /** The same change made twice is made once. */
  lemma ChangeIdempotent(d: PersonalInfo, f: Field, v: string)
    ensures HandleChange(HandleChange(d, f, v), f, v) == HandleChange(d, f, v)
  {
    SameFields(HandleChange(HandleChange(d, f, v), f, v), HandleChange(d, f, v));
  }

  /** Changes to two different fields give the same record in either order. */
  lemma ChangesCommute(d: PersonalInfo, f: Field, v: string, g: Field, w: string)
    requires f != g
    ensures HandleChange(HandleChange(d, f, v), g, w) == HandleChange(HandleChange(d, g, w), f, v)
  {
    SameFields(HandleChange(HandleChange(d, f, v), g, w), HandleChange(HandleChange(d, g, w), f, v));
  }

  /** Of two changes to one field, the later one wins. */
  lemma LastWriteWins(d: PersonalInfo, f: Field, v: string, w: string)
    ensures HandleChange(HandleChange(d, f, v), f, w) == HandleChange(d, f, w)
  {
    SameFields(HandleChange(HandleChange(d, f, v), f, w), HandleChange(d, f, w));
  }
}
