/**
  The Objective-C declarations the checks read, as the clang front end hands
  them over: names as text, source locations as character offsets, property
  attributes as a set, a method's body as the text it spans.
 */
module Decls {
  import opened Wrappers

  /** The property attribute kinds of `ObjCPropertyDecl::PropertyAttributeKind`; a set replaces the bit mask. */
  datatype PropertyAttribute =
    | ReadOnly | Getter | Assign | ReadWrite | Retain | Copy | Nonatomic | Setter
    | Atomic | Weak | Strong | UnsafeUnretained | Nullability | NullResettable | ClassProperty

  /**
    An `@interface`: its name, the location of the name (`getLocation`), and
    the file its source range begins in.
   */
  datatype ClassDecl = ClassDecl(name: string, loc: nat, file: string)

  /**
    A `@property`: the name and its location, the location where the
    declaration begins (`getBeginLoc`), the file, the printed type
    (`getType().getAsString()`), whether it has written type information
    (`getTypeSourceInfo() != nullptr`) and its attributes.
   */
  datatype PropertyDecl = PropertyDecl(
    name: string,
    loc: nat,
    beginLoc: nat,
    file: string,
    typeStr: string,
    hasTypeSourceInfo: bool,
    attributes: set<PropertyAttribute>)

  /** A name at a location: one selector slot (`getNameForSlot(i)`, `getSelectorLoc(i)`) or one parameter. */
  datatype Ident = Ident(name: string, loc: nat)

  /**
    An Objective-C method: its selector slots and parameters in order, its
    location, the start of its source range, the file, and the text of its
    body when it has one (`hasBody()`). For a method clang gives the same
    location for both: the `-` or `+` that opens the declaration.
   */
  datatype MethodDecl = MethodDecl(
    selector: seq<Ident>,
    params: seq<Ident>,
    loc: nat,
    beginLoc: nat,
    file: string,
    body: Option<string>)

  /** The checks read `name[0]` of a class without a guard. */
  predicate ValidClass(d: ClassDecl) {
    d.name != []
  }

  /**
    The property checks read `name[0]`, and `name[1]` when the name starts with
    `'_'`: the single name `"_"` is out of reach.
   */
  predicate ValidProperty(d: PropertyDecl) {
    d.name != [] && d.name != "_"
  }

  /** Every name in the list can have its first character read. */
  predicate AllNamed(ids: seq<Ident>) {
    forall k :: 0 <= k < |ids| ==> ids[k].name != []
  }

  /** Selector slot names and parameter names are read at index 0 without a guard. */
  predicate ValidMethod(m: MethodDecl) {
    AllNamed(m.selector) && AllNamed(m.params)
  }
}
