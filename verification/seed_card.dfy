/** The aspect-ratio class of a seed card, from `src/components/SeedCard.tsx`. */
module SeedCard {

  /** The `CardType` union of string literals. */
  datatype CardType = Square | Wide | Classic | Phone

  /** The string a `CardType` value is at run time. */
  function Tag(t: CardType): string
  {
    match t
    case Square => "square"
    case Wide => "wide"
    case Classic => "classic"
    case Phone => "phone"
  }

  /** The four classes `getAspectStyle` can answer. */
  const AspectClasses: set<string> := {"aspect-square", "aspect-video", "aspect-[4/3]", "aspect-[9/16]"}

  /**
   * `getAspectStyle(type)` on the run-time string: the four tags get their
   * classes and any other string the square fallback.
   */
  function AspectStyle(tag: string): (cls: string)
    ensures cls in AspectClasses
    ensures cls == "aspect-square" <==> tag != "wide" && tag != "classic" && tag != "phone"
  {
    match tag
    case "square" => "aspect-square"
    case "wide" => "aspect-video"
    case "classic" => "aspect-[4/3]"
    case "phone" => "aspect-[9/16]"
    case _ => "aspect-square"
  }

  /** The class of each card type. */
  lemma AspectStyleOfCardType(t: CardType)
    ensures t == Square ==> AspectStyle(Tag(t)) == "aspect-square"
    ensures t == Wide ==> AspectStyle(Tag(t)) == "aspect-video"
    ensures t == Classic ==> AspectStyle(Tag(t)) == "aspect-[4/3]"
    ensures t == Phone ==> AspectStyle(Tag(t)) == "aspect-[9/16]"
  {
  }

  /** Each card type gets its own class. */
  lemma AspectStyleInjective(a: CardType, b: CardType)
    ensures AspectStyle(Tag(a)) == AspectStyle(Tag(b)) ==> a == b
  {
    AspectStyleOfCardType(a);
    AspectStyleOfCardType(b);
  }

  /** Every class `getAspectStyle` can answer is the class of some card type. */
  lemma AspectStyleOnto()
    ensures AspectClasses == set t: CardType | true :: AspectStyle(Tag(t))
  {
    var image := set t: CardType | true :: AspectStyle(Tag(t));
    assert AspectStyle(Tag(Square)) in image && AspectStyle(Tag(Wide)) in image;
    assert AspectStyle(Tag(Classic)) in image && AspectStyle(Tag(Phone)) in image;
  }
}
