/** src/repositories/orders/property_size.go (duplicated verbatim in
    src/repositories/moving/postgres.go). Codes are integers: code 0 is
    Unknown, and a code outside 1..6 encodes like Unknown. */
module PropertySizes {

  const Unknown: int := 0
  const Studio: int := 1
  const OneBedroom: int := 2
  const TwoBedrooms: int := 3
  const ThreeBedrooms: int := 4
  const FourPlusBedrooms: int := 5
  const Commercial: int := 6

  predicate Known(p: int) {
    Studio <= p <= Commercial
  }

  /** The names of the known sizes, by code. */
  const Names: seq<string> :=
    ["studio", "1_bedroom", "2_bedrooms", "3_bedrooms", "4_plus_bedrooms", "commercial"]

  /** PropertySize.String */
  function ToString(p: int): (s: string)
    ensures Known(p) ==> FromString(s) == p
    ensures s == "unknown" <==> !Known(p)
    ensures Known(p) ==> s == Names[p - 1]
  {
    if p == Studio then "studio"
    else if p == OneBedroom then "1_bedroom"
    else if p == TwoBedrooms then "2_bedrooms"
    else if p == ThreeBedrooms then "3_bedrooms"
    else if p == FourPlusBedrooms then "4_plus_bedrooms"
    else if p == Commercial then "commercial"
    else "unknown"
  }

  /** NewPropertySize: lenient decoding, every unlisted text is Unknown. */
  function FromString(s: string): (p: int)
    ensures p == Unknown || Known(p)
    ensures p == Unknown <==> s !in Names
    ensures Known(p) ==> Names[p - 1] == s
  {
    if s == "studio" then Studio
    else if s == "1_bedroom" then OneBedroom
    else if s == "2_bedrooms" then TwoBedrooms
    else if s == "3_bedrooms" then ThreeBedrooms
    else if s == "4_plus_bedrooms" then FourPlusBedrooms
    else if s == "commercial" then Commercial
    else Unknown
  }

  /** Decoding a listed name and encoding it again gives the name back. */
  lemma NameRoundTrip(s: string)
    requires s in Names
    ensures ToString(FromString(s)) == s
  {
  }

  /** The six known sizes have six distinct names. */
  lemma ToStringInjective(p: int, q: int)
    requires Known(p) && Known(q) && ToString(p) == ToString(q)
    ensures p == q
  {
    assert FromString(ToString(p)) == p;
  }

  /** Encoding after decoding is the identity on listed names and maps
      every other text to "unknown". */
  lemma NormaliseText(s: string)
    ensures ToString(FromString(s)) == if s in Names then s else "unknown"
  {
  }

  /** The code a stored name reads back as: itself when known, Unknown otherwise. */
  function Canonical(p: int): int {
    if Known(p) then p else Unknown
  }

  /** Decoding after encoding keeps every known code and collapses every
      other code to Unknown. */
  lemma DecodeEncode(p: int)
    ensures FromString(ToString(p)) == Canonical(p)
  {
  }
}

/** src/repositories/moving/order_status.go (duplicated verbatim in
    src/repositories/moving/postgres.go). */
module OrderStatuses {

  const Unknown: int := 0
  const Created: int := 1
  const Rejected: int := 2
  const InProgress: int := 3
  const Done: int := 4

  predicate Known(s: int) {
    Created <= s <= Done
  }

  const Names: seq<string> := ["created", "rejected", "in_progress", "done"]

  /** OrderStatus.String */
  function ToString(st: int): (s: string)
    ensures Known(st) ==> FromString(s) == st
    ensures s == "unknown" <==> !Known(st)
    ensures Known(st) ==> s == Names[st - 1]
  {
    if st == Created then "created"
    else if st == Rejected then "rejected"
    else if st == InProgress then "in_progress"
    else if st == Done then "done"
    else "unknown"
  }

  /** NewOrderStatus */
  function FromString(s: string): (st: int)
    ensures st == Unknown || Known(st)
    ensures st == Unknown <==> s !in Names
    ensures Known(st) ==> Names[st - 1] == s
  {
    if s == "created" then Created
    else if s == "rejected" then Rejected
    else if s == "in_progress" then InProgress
    else if s == "done" then Done
    else Unknown
  }

  lemma NameRoundTrip(s: string)
    requires s in Names
    ensures ToString(FromString(s)) == s
  {
  }

  lemma ToStringInjective(p: int, q: int)
    requires Known(p) && Known(q) && ToString(p) == ToString(q)
    ensures p == q
  {
    assert FromString(ToString(p)) == p;
  }

  lemma NormaliseText(s: string)
    ensures ToString(FromString(s)) == if s in Names then s else "unknown"
  {
  }

  function Canonical(st: int): int {
    if Known(st) then st else Unknown
  }

  lemma DecodeEncode(st: int)
    ensures FromString(ToString(st)) == Canonical(st)
  {
  }
}
