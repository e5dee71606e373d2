/** The search result record and its amenity formatter (app/models.py). */
module Models {

  /** The separator the formatter puts before every amenity: a newline, two spaces, a dash, a space. */
  const Bullet: string := "\n  - "

  /** One search hit: the listing's metadata fields and its similarity score.
      `format_amenities` reads the record and never changes it. */
  datatype SearchResult = SearchResult(
    id: int,
    name: string,
    space: string,
    amenities: seq<string>,
    price: int,
    similarityScore: real)
  {
    /** The amenities as a bulleted list: `Bullet + Bullet.join(amenities)`. */
    function FormatAmenities(): (r: string)
      ensures |Bullet| <= |r| && r[..|Bullet|] == Bullet
    {
      Bullet + Join(Bullet, amenities)
    }
  }

  /** Python's `sep.join(parts)`: the parts with `sep` between neighbours, "" for no parts. */
  function Join(sep: string, parts: seq<string>): (r: string)
  {
    if |parts| == 0 then ""
    else if |parts| == 1 then parts[0]
    else parts[0] + sep + Join(sep, parts[1..])
  }

  /** Reference definition: every part preceded by its own bullet, in order. */
  function Bulleted(parts: seq<string>): string
  {
    if parts == [] then "" else Bullet + parts[0] + Bulleted(parts[1..])
  }

  /** The sum of the lengths of the parts. */
  function TotalLength(parts: seq<string>): nat
  {
    if parts == [] then 0 else |parts[0]| + TotalLength(parts[1..])
  }

  /** With no amenities the formatter still emits one bullet and nothing else. */
  lemma FormatAmenitiesEmpty(r: SearchResult)
    requires r.amenities == []
    ensures r.FormatAmenities() == Bullet
  {
  }

  /** Prefixing a bullet to the joined parts puts a bullet before every part. */
  lemma {:induction false} JoinBulleted(parts: seq<string>)
    requires parts != []
    ensures Bullet + Join(Bullet, parts) == Bulleted(parts)
  {
    if |parts| == 1 {
      assert Bulleted(parts[1..]) == "";
    } else {
      JoinBulleted(parts[1..]);
      calc {
        Bullet + Join(Bullet, parts);
        Bullet + (parts[0] + Bullet + Join(Bullet, parts[1..]));
        Bullet + parts[0] + (Bullet + Join(Bullet, parts[1..]));
        Bullet + parts[0] + Bulleted(parts[1..]);
      }
    }
  }

  /** For a non-empty list the formatter returns "bullet + a" for each amenity a, in list order. */
  lemma FormatAmenitiesBulleted(r: SearchResult)
    requires r.amenities != []
    ensures r.FormatAmenities() == Bulleted(r.amenities)
  {
    JoinBulleted(r.amenities);
  }

  /** Each bullet adds five characters to the parts it precedes. */
  lemma {:induction false} BulletedLength(parts: seq<string>)
    ensures |Bulleted(parts)| == |Bullet| * |parts| + TotalLength(parts)
  {
    if parts != [] {
      BulletedLength(parts[1..]);
    }
  }

  /** The formatted length is five per amenity (at least five) plus the amenities' lengths. */
  lemma FormatAmenitiesLength(r: SearchResult)
    ensures |r.FormatAmenities()|
         == 5 * (if |r.amenities| == 0 then 1 else |r.amenities|) + TotalLength(r.amenities)
  {
    if r.amenities != [] {
      FormatAmenitiesBulleted(r);
      BulletedLength(r.amenities);
    }
  }
}
