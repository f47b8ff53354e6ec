/** The value held for one point of interest in a result list, with Java's
    `equals` and `hashCode` as the class writes them. The getters of the class
    are the destructors of the datatype. */
module ListItemModels {
  import opened JavaLang

  datatype ListItemModel = ListItemModel(
    id: string,
    title: Nullable<string>,
    locationType: Nullable<string>,
    isWheelChairAccessible: bool,
    isChildFriendly: bool,
    hasCheapEntry: bool,
    hasFreeEntry: bool,
    distanceFromCurrentPosInMeters: real)

  /** The argument of `equals(Object)`: null, an object of another class, or
      a list item. */
  datatype Object = NullObject | OtherClass | Model(model: ListItemModel)

  /** `s.equals(o)` for a non-null string `s`: false when `o` is null. */
  predicate StringEquals(s: string, o: Nullable<string>)
    ensures StringEquals(s, o) <==> o.Ref? && o.value == s
  {
    o == Ref(s)
  }

  /** `equals` as written. The return expression parses, under the rules for the
      conditional operator (section 15.25 of the Java Language Specification), as
        type != null ? type.equals(o.type)
                     : ((o.type == null && title != null) ? title.equals(o.title)
                                                           : o.title == null)
      The `this == o` shortcut is left out: `EqualsReflexive` shows the field
      comparison already yields true for the same object. */
  function Equals(self: ListItemModel, o: Object): (r: bool)
    ensures r ==> o.Model? && o.model.id == self.id
  {
    match o
    case NullObject => false
    case OtherClass => false
    case Model(other) =>
      if self.id != other.id then false
      else if self.locationType.Ref? then StringEquals(self.locationType.value, other.locationType)
      else if other.locationType.Null? && self.title.Ref? then StringEquals(self.title.value, other.title)
      else other.title.Null?
  }

  /** A field's contribution to `hashCode`: its string hash, or 0 for null. */
  function FieldHash(s: Nullable<string>, stringHash: string -> int): (r: int)
    ensures IsInt(r)
    ensures s.Null? ==> r == 0
  {
    match s
    case Null => 0
    case Ref(v) => Wrap(stringHash(v))
  }

  /** `hashCode`: `31 * h(id) + h(title) + h(type)` in 32-bit arithmetic, where
      `stringHash` stands for `String.hashCode` and a null field adds 0. */
  function HashCode(self: ListItemModel, stringHash: string -> int): (r: int)
    ensures IsInt(r)
    ensures (r - (31 * Wrap(stringHash(self.id)) + FieldHash(self.title, stringHash)
                  + FieldHash(self.locationType, stringHash))) % 0x1_0000_0000 == 0
  {
    Wrap(31 * Wrap(stringHash(self.id)) + FieldHash(self.title, stringHash)
         + FieldHash(self.locationType, stringHash))
  }

  /** Equality of the fields `equals` is evidently meant to compare: id, title
      and location type, each null only when the other is. */
  function CorrectedEquals(self: ListItemModel, o: Object): (r: bool)
    ensures r <==> o.Model? && o.model.id == self.id && o.model.title == self.title
                   && o.model.locationType == self.locationType
  {
    match o
    case Model(other) =>
      self.id == other.id
      && (if self.title.Ref? then StringEquals(self.title.value, other.title) else other.title.Null?)
      && (if self.locationType.Ref? then StringEquals(self.locationType.value, other.locationType)
          else other.locationType.Null?)
    case _ => false
  }

  /** The same item with its distance and four flags replaced. */
  function WithAttributes(m: ListItemModel, wheelChair: bool, child: bool, cheap: bool,
                          free: bool, distance: real): ListItemModel
  {
    m.(isWheelChairAccessible := wheelChair, isChildFriendly := child,
       hasCheapEntry := cheap, hasFreeEntry := free,
       distanceFromCurrentPosInMeters := distance)
  }

  // ---------------------------------------------------------------------------
  // What `equals` as written decides

  lemma EqualsReflexive(m: ListItemModel)
    ensures Equals(m, Model(m))
  {
  }

  lemma EqualsRejectsNullAndOtherClasses(m: ListItemModel)
    ensures !Equals(m, NullObject) && !Equals(m, OtherClass)
  {
  }

  lemma DifferentIdsNeverEqual(a: ListItemModel, b: ListItemModel)
    requires a.id != b.id
    ensures !Equals(a, Model(b)) && !Equals(b, Model(a))
  {
  }

  /** With a non-null location type, equality is id and type; titles are never read. */
  lemma EqualsWithTypeIgnoresTitle(a: ListItemModel, b: ListItemModel)
    requires a.locationType.Ref?
    ensures Equals(a, Model(b)) <==> a.id == b.id && b.locationType == a.locationType
  {
  }

  /** With a null location type, titles are compared only when the other type is
      null too and the receiver's title is non-null; otherwise the answer is
      whether the other's title is null. */
  lemma EqualsWithoutType(a: ListItemModel, b: ListItemModel)
    requires a.locationType.Null? && a.id == b.id
    ensures b.locationType.Null? && a.title.Ref? ==> (Equals(a, Model(b)) <==> b.title == a.title)
    ensures !(b.locationType.Null? && a.title.Ref?) ==> (Equals(a, Model(b)) <==> b.title.Null?)
  {
  }

  /** Distance and the four flags take no part in `equals` or `hashCode`. */
  lemma AttributesIgnored(a: ListItemModel, b: ListItemModel, stringHash: string -> int,
                          w: bool, c: bool, ch: bool, f: bool, d: real)
    ensures Equals(WithAttributes(a, w, c, ch, f, d), Model(b)) == Equals(a, Model(b))
    ensures Equals(b, Model(WithAttributes(a, w, c, ch, f, d))) == Equals(b, Model(a))
    ensures HashCode(WithAttributes(a, w, c, ch, f, d), stringHash) == HashCode(a, stringHash)
  {
  }

  /** Items that agree on id, title and type have the same hash code. */
  lemma HashCodeDependsOnIdTitleType(a: ListItemModel, b: ListItemModel, stringHash: string -> int)
    requires a.id == b.id && a.title == b.title && a.locationType == b.locationType
    ensures HashCode(a, stringHash) == HashCode(b, stringHash)
  {
  }

  /** The full comparison implies `equals` as written. */
  lemma CorrectedEqualsImpliesEquals(a: ListItemModel, o: Object)
    requires CorrectedEquals(a, o)
    ensures Equals(a, o)
  {
  }

  // ---------------------------------------------------------------------------
  // The precedence slip: inputs on which `equals` as written departs from the
  // evidently intended comparison of id, title and type

  const Castle := ListItemModel("loc1", Ref("Castle"), Ref("museum"), false, false, false, false, 0.0)
  const Cave := ListItemModel("loc1", Ref("Cave"), Ref("museum"), false, false, false, false, 0.0)
  const Untyped := ListItemModel("loc1", Null, Null, false, false, false, false, 0.0)
  const Typed := ListItemModel("loc1", Null, Ref("museum"), false, false, false, false, 0.0)

  /** Two items with different titles are equal. */
  lemma EqualsIgnoresTitleWitness()
    ensures Castle.title != Cave.title
    ensures Equals(Castle, Model(Cave)) && !CorrectedEquals(Castle, Model(Cave))
  {
  }

  /** `equals` is not symmetric: a null type and null title match any type. */
  lemma EqualsAsymmetricWitness()
    ensures Equals(Untyped, Model(Typed)) && !Equals(Typed, Model(Untyped))
  {
  }

  /** Equal items may get different hash codes, for any string hash that tells
      "Castle" from "Cave". */
  lemma EqualsInconsistentWithHashCode(stringHash: string -> int)
    requires Wrap(stringHash("Castle")) != Wrap(stringHash("Cave"))
    ensures Equals(Castle, Model(Cave)) && HashCode(Castle, stringHash) != HashCode(Cave, stringHash)
  {
    var base := 31 * Wrap(stringHash("loc1")) + Wrap(stringHash("museum"));
    var x, y := Wrap(stringHash("Castle")), Wrap(stringHash("Cave"));
    assert HashCode(Castle, stringHash) == Wrap(base + x);
    assert HashCode(Cave, stringHash) == Wrap(base + y);
    WrapInjectiveOnShortRange(base + x, base + y);
  }

  lemma WrapInjectiveOnShortRange(x: int, y: int)
    requires -0x1_0000_0000 < x - y < 0x1_0000_0000 && x != y
    ensures Wrap(x) != Wrap(y)
  {
  }

  // ---------------------------------------------------------------------------
  // The intended comparison is an equivalence consistent with `hashCode`

  lemma CorrectedEqualsIsEquivalence(a: ListItemModel, b: ListItemModel, c: ListItemModel)
    ensures CorrectedEquals(a, Model(a))
    ensures CorrectedEquals(a, Model(b)) ==> CorrectedEquals(b, Model(a))
    ensures CorrectedEquals(a, Model(b)) && CorrectedEquals(b, Model(c)) ==> CorrectedEquals(a, Model(c))
    ensures !CorrectedEquals(a, NullObject) && !CorrectedEquals(a, OtherClass)
  {
  }

  lemma CorrectedEqualsConsistentWithHashCode(a: ListItemModel, b: ListItemModel, stringHash: string -> int)
    requires CorrectedEquals(a, Model(b))
    ensures HashCode(a, stringHash) == HashCode(b, stringHash)
  {
  }
}
