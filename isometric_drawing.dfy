/** The `IsometricDrawing` component: how it names the class of a drawn item, turns
    a path into a numbered dictionary of coordinates, checks the arguments it hands
    on to the isometric library, and keeps its settings, its view and the events it
    raises. The geometry itself (points, shapes, their transforms) belongs to the
    library and appears here only as values that are passed through. */
module IsometricDrawing {
  import opened Wrappers
  import opened ColorUtils

  /** A library point; its coordinates are Java doubles, kept as reals and never computed on. */
  datatype Point = Point(x: real, y: real, z: real)

  /** The nine library classes the kind lookup names. Circle, Rectangle and Star
      are paths, the other six are solid shapes. */
  datatype ShapeKind = Circle | Rectangle | Star | Cylinder | Knot | Octahedron | Prism | Pyramid | Stairs

  /** The class the kind lookup returns: one of the nine library classes, or the
      object's own class, known by its simple name. */
  datatype Kind = Library(shape: ShapeKind) | Other(simpleName: string)

  /** The simple class name of each of the nine library classes. */
  function ShapeKindName(k: ShapeKind): string
  {
    match k
    case Circle => "Circle"
    case Rectangle => "Rectangle"
    case Star => "Star"
    case Cylinder => "Cylinder"
    case Knot => "Knot"
    case Octahedron => "Octahedron"
    case Prism => "Prism"
    case Pyramid => "Pyramid"
    case Stairs => "Stairs"
  }

  const LibraryNames: set<string> :=
    {"Circle", "Rectangle", "Star", "Cylinder", "Knot", "Octahedron", "Prism", "Pyramid", "Stairs"}

  /** `getSimpleName()` of the class a kind stands for. */
  function KindName(k: Kind): string
  {
    match k
    case Library(s) => ShapeKindName(s)
    case Other(name) => name
  }

  /** A kind the lookup can produce: an `Other` class never carries one of the nine names. */
  predicate Resolvable(k: Kind)
  {
    k.Other? ==> k.simpleName !in LibraryNames
  }

  /** Argument lists of the colour constructors of the library (the `Color` class itself is not modelled). */
  datatype ColorArgs = Rgb(red: int, green: int, blue: int) | Rgba(red: int, green: int, blue: int, alpha: int)

  /** A Java object passed through the component's `Object`-typed parameters. */
  datatype Value =
    | Null
    | PointValue(point: Point)
      /** a library `Path` or one of its subclasses; an absent slot is a null array entry */
    | PathValue(className: string, slots: seq<Option<Point>>)
      /** a library `Shape` or one of its subclasses; its faces are the library's business */
    | ShapeValue(className: string)
    | ColorValue(args: ColorArgs)
      /** any other object: a number, a text, a list */
    | Opaque(className: string)

  /** `getClass().getSimpleName()` of a non-null value. */
  function SimpleName(v: Value): string
    requires !v.Null?
  {
    match v
    case PointValue(_) => "Point"
    case PathValue(name, _) => name
    case ShapeValue(name) => name
    case ColorValue(_) => "Color"
    case Opaque(name) => name
  }

  /** The switch of `getType` on a simple class name. Whatever the name, the
      class it returns has that simple name again. */
  function KindOfName(name: string): (k: Kind)
    ensures KindName(k) == name
    ensures k.Library? <==> name in LibraryNames
    ensures Resolvable(k)
  {
    match name
    case "Circle" => Library(Circle)
    case "Rectangle" => Library(Rectangle)
    case "Star" => Library(Star)
    case "Cylinder" => Library(Cylinder)
    case "Knot" => Library(Knot)
    case "Octahedron" => Library(Octahedron)
    case "Prism" => Library(Prism)
    case "Pyramid" => Library(Pyramid)
    case "Stairs" => Library(Stairs)
    case _ => Other(name)
  }

  /** `getType`: the class of a non-null object, by its simple name. */
  function GetType(main: Value): (k: Kind)
    requires !main.Null?
    ensures KindName(k) == SimpleName(main)
    ensures k.Library? <==> SimpleName(main) in LibraryNames
  {
    KindOfName(SimpleName(main))
  }

  /** Every kind the lookup can produce comes back from its own name. */
  lemma KindRoundTrip(k: Kind)
    requires Resolvable(k)
    ensures KindOfName(KindName(k)) == k
  {
  }

  /** The `from` and message of an `OnErrorOccurred` event. */
  datatype Failure = Failure(message: string, from: string)

  // ----- colours -----

  /** `CreateColor`: the red, green and blue channels of a packed ARGB colour. */
  function CreateColor(color: Int32): (v: Value)
    ensures v.ColorValue? && v.args.Rgb?
    ensures 0 <= v.args.red <= 0xFF && 0 <= v.args.green <= 0xFF && 0 <= v.args.blue <= 0xFF
    ensures v == ColorValue(Rgb(Byte(color, 2), Byte(color, 1), Byte(color, 0)))
  {
    ColorValue(Rgb(GetRed(color), GetGreen(color), GetBlue(color)))
  }

  /** `CreateColorWithAlpha`: all four channels of a packed ARGB colour. */
  function CreateColorWithAlpha(color: Int32): (v: Value)
    ensures v.ColorValue? && v.args.Rgba?
    ensures 0 <= v.args.red <= 0xFF && 0 <= v.args.green <= 0xFF && 0 <= v.args.blue <= 0xFF
    ensures 0 <= v.args.alpha <= 0xFF
    ensures v == ColorValue(Rgba(Byte(color, 2), Byte(color, 1), Byte(color, 0), Byte(color, 3)))
  {
    ColorValue(Rgba(GetRed(color), GetGreen(color), GetBlue(color), GetAlpha(color)))
  }

  /** `CreateColorRGB`: the channels are passed on as given, without a range check. */
  function CreateColorRGB(r: Int32, g: Int32, b: Int32): (v: Value)
    ensures v.ColorValue? && v.args.Rgb?
    ensures v.args.red == r && v.args.green == g && v.args.blue == b
  {
    ColorValue(Rgb(r, g, b))
  }

  /** `CreateColorRGBA`: the channels are passed on as given, without a range check. */
  function CreateColorRGBA(r: Int32, g: Int32, b: Int32, a: Int32): (v: Value)
    ensures v.ColorValue? && v.args.Rgba?
    ensures v.args.red == r && v.args.green == g && v.args.blue == b && v.args.alpha == a
  {
    ColorValue(Rgba(r, g, b, a))
  }

  /** A colour made from a packed ARGB value is the colour made from its channels. */
  lemma CreateColorFromPacked(a: int, r: int, g: int, b: int)
    requires 0 <= a <= 0xFF && 0 <= r <= 0xFF && 0 <= g <= 0xFF && 0 <= b <= 0xFF
    ensures CreateColorWithAlpha(Pack(a, r, g, b)) == CreateColorRGBA(r, g, b, a)
    ensures CreateColor(Pack(a, r, g, b)) == CreateColorRGB(r, g, b)
  {
    ExtractPacked(a, r, g, b);
  }

  // ----- factories -----

  /** How many numeric arguments each factory takes after its origin. */
  function Arity(k: ShapeKind): nat
  {
    match k
    case Circle => 2       // radius, vertices
    case Rectangle => 2    // width, height
    case Star => 3         // outer radius, inner radius, points
    case Cylinder => 3     // radius, vertices, height
    case Knot => 0
    case Octahedron => 0
    case Prism => 3        // dx, dy, dz
    case Pyramid => 3      // dx, dy, dz
    case Stairs => 1       // step count
  }

  /** The error a factory raises when its origin is not a point. */
  function FactoryFailure(k: ShapeKind): Failure
  {
    match k
    case Circle => Failure("Invalid point type for creating circle path", "CreateCircle")
    case Rectangle => Failure("Invalid point type for creating rectangle path", "CreateRectangle")
    case Star => Failure("Invalid point type for creating star path", "CreateStar")
    case Cylinder => Failure("Error Point Type", "CreateCylinder")
    case Knot => Failure("Error Point Type", "CreateKnot")
    case Octahedron => Failure("Error Point Type", "CreateOctahedron")
    case Prism => Failure("Error Point Type", "CreatePrism")
    case Pyramid => Failure("Error Point Type", "CreatePyramid")
    case Stairs => Failure("Error Point Type", "CreateStairs")
  }

  /** The library constructor call a factory makes once its origin is a point. */
  datatype Construction = Construction(kind: ShapeKind, origin: Point, params: seq<real>)

  /** The guard of the nine `Create*` factories: the origin must be a point. */
  function Construct(kind: ShapeKind, origin: Value, params: seq<real>): (r: Result<Construction, Failure>)
    requires |params| == Arity(kind)
    ensures r.Ok? <==> origin.PointValue?
    ensures r.Ok? ==> r.value.kind == kind && r.value.origin == origin.point && r.value.params == params
    ensures r.Err? ==> r.error.from == "Create" + ShapeKindName(kind)
  {
    if origin.PointValue? then Ok(Construction(kind, origin.point, params))
    else Err(FactoryFailure(kind))
  }

  // ----- transforms -----

  /** The five transforms with their arguments. */
  datatype Op =
    | TranslateBy(dx: real, dy: real, dz: real)
    | ScaleBy(origin: Value, dx: real, dy: real, dz: real)
    | RotateXBy(origin: Value, angle: real)
    | RotateYBy(origin: Value, angle: real)
    | RotateZBy(origin: Value, angle: real)

  /** The library method a transform looks up by reflection. */
  function MethodName(op: Op): string
  {
    match op
    case TranslateBy(_, _, _) => "translate"
    case ScaleBy(_, _, _, _) => "scale"
    case RotateXBy(_, _) => "rotateX"
    case RotateYBy(_, _) => "rotateY"
    case RotateZBy(_, _) => "rotateZ"
  }

  /** The numbers a transform passes to the library. */
  function Amounts(op: Op): seq<real>
  {
    match op
    case TranslateBy(dx, dy, dz) => [dx, dy, dz]
    case ScaleBy(_, dx, dy, dz) => [dx, dy, dz]
    case RotateXBy(_, angle) => [angle]
    case RotateYBy(_, angle) => [angle]
    case RotateZBy(_, angle) => [angle]
  }

  /** The error a transform raises when its guard fails. */
  function GuardFailure(op: Op): Failure
  {
    match op
    case TranslateBy(_, _, _) => Failure("Invalid main object for translation", "Translate")
    case ScaleBy(_, _, _, _) => Failure("Invalid main or originPoint type for scaling", "Scale")
    case RotateXBy(_, _) => Failure("Invalid main or originPoint type for rotating X", "RotateX")
    case RotateYBy(_, _) => Failure("Invalid main or originPoint type for rotating Y", "RotateY")
    case RotateZBy(_, _) => Failure("Invalid main or originPoint type for rotating Z", "RotateZ")
  }

  /** The reflective call a transform makes: method `methodName` of class `target`,
      invoked on `receiver` with the origin (for all but translate) and the amounts. */
  datatype Invocation = Invocation(target: Kind, methodName: string, receiver: Value, origin: Option<Point>, amounts: seq<real>)

  /** The guard and dispatch of `Translate`, `Scale`, `RotateX`, `RotateY`, `RotateZ`:
      the object must be non-null and, except for translate, the origin a point;
      the method is then looked up on the class `getType` gives. */
  function Dispatch(main: Value, op: Op): (r: Result<Invocation, Failure>)
    ensures r.Ok? <==> !main.Null? && (op.TranslateBy? || op.origin.PointValue?)
    ensures r.Ok? ==> && r.value.receiver == main
                      && r.value.target == GetType(main)
                      && r.value.methodName == MethodName(op)
                      && r.value.amounts == Amounts(op)
                      && r.value.origin == (if op.TranslateBy? then None else Some(op.origin.point))
    ensures r.Err? ==> r.error == GuardFailure(op)
  {
    if main.Null? then Err(GuardFailure(op))
    else if op.TranslateBy? then Ok(Invocation(GetType(main), MethodName(op), main, None, Amounts(op)))
    else if op.origin.PointValue? then Ok(Invocation(GetType(main), MethodName(op), main, Some(op.origin.point), Amounts(op)))
    else Err(GuardFailure(op))
  }

  // ----- paths -----

  /** The list `[x, y, z]` that stands for a point in a path dictionary. */
  function Coordinates(p: Point): seq<real>
  {
    [p.x, p.y, p.z]
  }

  /** `d` is the dictionary of `points`: keys 1 to n, key i + 1 holding the coordinates of point i. */
  ghost predicate IsPathList(d: map<int, seq<real>>, points: seq<Point>)
  {
    && (forall k :: k in d <==> 1 <= k <= |points|)
    && forall i :: 0 <= i < |points| ==> d[i + 1] == Coordinates(points[i])
  }

  /** `pathToList`: the points of a path as a dictionary numbered from 1, in order.
      The points are never null here; the source throws on a null point. */
  method PathToList(points: seq<Point>) returns (dictionary: map<int, seq<real>>)
    ensures IsPathList(dictionary, points)
  {
    dictionary := map[];
    var i := 0;
    while i < |points|
      invariant 0 <= i <= |points|
      invariant forall k :: k in dictionary <==> 1 <= k <= i
      invariant forall j :: 0 <= j < i ==> dictionary[j + 1] == Coordinates(points[j])
    {
      var point := points[i];
      dictionary := dictionary[i + 1 := [point.x, point.y, point.z]];
      i := i + 1;
    }
  }

  const BadPointFailure: Failure := Failure("Invalid point type for creating path", "CreatePath")

  /** The slot `CreatePath` fills for one list element: the point, or null. */
  function PointSlot(v: Value): Option<Point>
  {
    if v.PointValue? then Some(v.point) else None
  }

  /** The errors `CreatePath` raises for a list, one per element that is not a point, in order. */
  function PathErrors(elements: seq<Value>): seq<Failure>
  {
    if elements == [] then []
    else PathErrors(elements[..|elements| - 1])
         + (if elements[|elements| - 1].PointValue? then [] else [BadPointFailure])
  }

  /** Every error of `PathErrors` is the bad-point error, there is exactly one per
      element that is not a point, and there is none exactly when every element is a point. */
  lemma {:induction false} PathErrorsShape(elements: seq<Value>)
    ensures forall e :: e in PathErrors(elements) ==> e == BadPointFailure
    ensures |PathErrors(elements)| == |set j | 0 <= j < |elements| && !elements[j].PointValue?|
    ensures PathErrors(elements) == [] <==> forall j :: 0 <= j < |elements| ==> elements[j].PointValue?
  {
    if elements != [] {
      var init := elements[..|elements| - 1];
      PathErrorsShape(init);
      assert forall j :: 0 <= j < |init| ==> init[j] == elements[j];
      var n := |elements| - 1;
      var bad := set j | 0 <= j < |elements| && !elements[j].PointValue?;
      var badInit := set j | 0 <= j < |init| && !init[j].PointValue?;
      if elements[n].PointValue? {
        assert bad == badInit;
      } else {
        assert bad == badInit + {n};
        assert n !in badInit;
      }
    }
  }

  // ----- the component -----

  /** The settings `Initialize` copies into a new view. */
  datatype ViewSettings = ViewSettings(
    sort: bool, cull: bool, boundsCheck: bool, reverseSortForLookup: bool,
    touchRadiusLookup: bool, touchRadius: real, background: Int32)

  /** `android.graphics.Color.TRANSPARENT`. */
  const TRANSPARENT: Int32 := 0

  const DefaultSettings: ViewSettings := ViewSettings(true, false, false, false, false, 1.0, TRANSPARENT)

  /** What has been added to a view, in order. */
  datatype Item = ShapeItem(shape: Value, color: Value) | PathItem(path: Value, color: Value)

  /** The `IsometricView` as the component sees it. */
  datatype View = View(settings: ViewSettings, items: seq<Item>)

  /** The events the component dispatches. */
  datatype Event =
    | ErrorOccurred(failure: Failure)
    | Clicked(shapeType: string, pathList: map<int, seq<real>>)
    | Cleared

  class IsometricDrawing {
    var sort: bool
    var cull: bool
    var boundsCheck: bool
    var reverseSortForLookup: bool
    var touchRadiusLookup: bool
    var touchRadius: real
    var bgColor: Int32
    var isometricView: Option<View>
    /** Every event dispatched so far, oldest first. */
    var events: seq<Event>

    function Settings(): ViewSettings
      reads this
    {
      ViewSettings(sort, cull, boundsCheck, reverseSortForLookup, touchRadiusLookup, touchRadius, bgColor)
    }

    constructor ()
      ensures Settings() == DefaultSettings
      ensures isometricView == None && events == []
    {
      sort, cull, boundsCheck, reverseSortForLookup, touchRadiusLookup := true, false, false, false, false;
      touchRadius := 1.0;
      bgColor := TRANSPARENT;
      isometricView := None;
      events := [];
    }

    method Sort(sort: bool)
      modifies this`sort
      ensures Settings() == old(Settings()).(sort := sort)
    {
      this.sort := sort;
    }

    method Cull(cull: bool)
      modifies this`cull
      ensures Settings() == old(Settings()).(cull := cull)
    {
      this.cull := cull;
    }

    method BoundsCheck(boundsCheck: bool)
      modifies this`boundsCheck
      ensures Settings() == old(Settings()).(boundsCheck := boundsCheck)
    {
      this.boundsCheck := boundsCheck;
    }

    method ReverseSortForLookup(reverseSortForLookup: bool)
      modifies this`reverseSortForLookup
      ensures Settings() == old(Settings()).(reverseSortForLookup := reverseSortForLookup)
    {
      this.reverseSortForLookup := reverseSortForLookup;
    }

    method TouchRadiusLookup(touchRadiusLookup: bool)
      modifies this`touchRadiusLookup
      ensures Settings() == old(Settings()).(touchRadiusLookup := touchRadiusLookup)
    {
      this.touchRadiusLookup := touchRadiusLookup;
    }

    /** The radius is taken as a Java `int` and kept as a double. */
    method TouchRadius(touchRadius: Int32)
      modifies this`touchRadius
      ensures Settings() == old(Settings()).(touchRadius := touchRadius as real)
    {
      this.touchRadius := touchRadius as real;
    }

    method BackgroundColor(bgColor: Int32)
      modifies this`bgColor
      ensures Settings() == old(Settings()).(background := bgColor)
    {
      this.bgColor := bgColor;
    }

    /** A new, empty view configured with the current settings replaces any earlier one. */
    method Initialize()
      modifies this`isometricView
      ensures isometricView == Some(View(Settings(), []))
    {
      isometricView := Some(View(Settings(), []));
    }

    /** `OnErrorOccurred`. */
    method RaiseError(failure: Failure)
      modifies this`events
      ensures events == old(events) + [ErrorOccurred(failure)]
    {
      events := events + [ErrorOccurred(failure)];
    }

    /** `Clear`; `hasParent` is whether the view tree reports a parent for the view. */
    method Clear(hasParent: bool)
      modifies this`isometricView, this`events
      ensures old(isometricView).None? ==>
        isometricView == None && events == old(events) + [ErrorOccurred(Failure("Isometric Drawing view is null", "Clear"))]
      ensures old(isometricView).Some? && !hasParent ==>
        isometricView == old(isometricView)
        && events == old(events) + [ErrorOccurred(Failure("Can't get parent of isometric drawing view.", "Clear"))]
      ensures old(isometricView).Some? && hasParent ==> isometricView == None && events == old(events) + [Cleared]
    {
      if isometricView.Some? {
        if !hasParent {
          RaiseError(Failure("Can't get parent of isometric drawing view.", "Clear"));
          return;
        }
        isometricView := None;
        events := events + [Cleared];
      } else {
        RaiseError(Failure("Isometric Drawing view is null", "Clear"));
      }
    }

    /** `AddShape`: without a view nothing happens; only a shape is added. */
    method AddShape(shape: Value, color: Value)
      modifies this`isometricView, this`events
      ensures old(isometricView).None? ==> isometricView == None && events == old(events)
      ensures old(isometricView).Some? && shape.ShapeValue? ==>
        isometricView == Some(old(isometricView).value.(items := old(isometricView).value.items + [ShapeItem(shape, color)]))
        && events == old(events)
      ensures old(isometricView).Some? && !shape.ShapeValue? ==>
        isometricView == old(isometricView)
        && events == old(events) + [ErrorOccurred(Failure("Invalid shape type for add shape", "AddShape"))]
    {
      if isometricView.Some? {
        if shape.ShapeValue? {
          var view := isometricView.value;
          isometricView := Some(view.(items := view.items + [ShapeItem(shape, color)]));
        } else {
          RaiseError(Failure("Invalid shape type for add shape", "AddShape"));
        }
      }
    }

    /** `AddPath`: without a view nothing happens; only a path is added. */
    method AddPath(path: Value, color: Value)
      modifies this`isometricView, this`events
      ensures old(isometricView).None? ==> isometricView == None && events == old(events)
      ensures old(isometricView).Some? && path.PathValue? ==>
        isometricView == Some(old(isometricView).value.(items := old(isometricView).value.items + [PathItem(path, color)]))
        && events == old(events)
      ensures old(isometricView).Some? && !path.PathValue? ==>
        isometricView == old(isometricView)
        && events == old(events) + [ErrorOccurred(Failure("Invalid path type for add path", "AddPath"))]
    {
      if isometricView.Some? {
        if path.PathValue? {
          var view := isometricView.value;
          isometricView := Some(view.(items := view.items + [PathItem(path, color)]));
        } else {
          RaiseError(Failure("Invalid path type for add path", "AddPath"));
        }
      }
    }

    /** The nine `Create*` factories: the construction handed to the library, or
        null and one error when the origin is not a point. */
    method Create(kind: ShapeKind, origin: Value, params: seq<real>) returns (r: Option<Construction>)
      requires |params| == Arity(kind)
      modifies this`events
      ensures origin.PointValue? ==> r == Some(Construction(kind, origin.point, params)) && events == old(events)
      ensures !origin.PointValue? ==> r == None && events == old(events) + [ErrorOccurred(FactoryFailure(kind))]
    {
      match Construct(kind, origin, params)
      case Ok(c) => r := Some(c);
      case Err(failure) =>
        RaiseError(failure);
        r := None;
    }

    /** `Translate`, `Scale`, `RotateX`, `RotateY` and `RotateZ`: the call handed to
        the library, or null and one error when the guard fails. */
    method Transform(main: Value, op: Op) returns (r: Option<Invocation>)
      modifies this`events
      ensures r.Some? <==> !main.Null? && (op.TranslateBy? || op.origin.PointValue?)
      ensures r.Some? ==> Dispatch(main, op) == Ok(r.value) && events == old(events)
      ensures r.None? ==> events == old(events) + [ErrorOccurred(GuardFailure(op))]
    {
      match Dispatch(main, op)
      case Ok(call) => r := Some(call);
      case Err(failure) =>
        RaiseError(failure);
        r := None;
    }

    /** `CreatePath`: an array as long as the list, holding each point at its own
        index and null where the list holds something else, with one error per
        such element; every element is visited. */
    method CreatePath(points: seq<Value>) returns (path: Value)
      modifies this`events
      ensures path.PathValue? && path.className == "Path"
      ensures |path.slots| == |points|
      ensures forall j :: 0 <= j < |points| ==> path.slots[j] == PointSlot(points[j])
      ensures events == old(events) + ErrorEvents(PathErrors(points))
    {
      var list := new Option<Point>[|points|](_ => None);
      ghost var raised := events;
      var i := 0;
      while i < |points|
        invariant 0 <= i <= |points|
        invariant forall j :: 0 <= j < i ==> list[j] == PointSlot(points[j])
        invariant forall j :: i <= j < |points| ==> list[j] == None
        invariant events == raised + ErrorEvents(PathErrors(points[..i]))
      {
        assert points[..i + 1][..i] == points[..i];
        if points[i].PointValue? {
          list[i] := Some(points[i].point);
        } else {
          RaiseError(BadPointFailure);
        }
        i := i + 1;
      }
      assert points[..i] == points;
      path := PathValue("Path", list[..]);
    }

    /** The click listener: the item's original object named through `getType`,
        and its path as a dictionary. A null original object or a null point is
        excluded; on either the source throws a null-pointer exception. */
    method ItemClicked(original: Value, path: seq<Point>)
      requires !original.Null?
      modifies this`events
      ensures |events| == |old(events)| + 1 && events[..|old(events)|] == old(events)
      ensures events[|events| - 1].Clicked?
      ensures events[|events| - 1].shapeType == SimpleName(original)
      ensures IsPathList(events[|events| - 1].pathList, path)
    {
      var list := PathToList(path);
      events := events + [Clicked(KindName(GetType(original)), list)];
    }
  }

  /** The events that report some failures, in order. */
  function ErrorEvents(failures: seq<Failure>): seq<Event>
  {
    seq(|failures|, k requires 0 <= k < |failures| => ErrorOccurred(failures[k]))
  }
}
