# IsometricDrawing, modelled in Dafny

IsometricDrawing is an App Inventor extension. It puts an isometric drawing surface
into an Android app and passes the app's calls on to an external isometric library. This
project models the logic the extension itself contains. The geometry belongs to the
library and is not modelled.

- `ColorUtils` (`color_utils.dfy`, with `arith.dfy`). A colour is a Java `int` in ARGB
  layout. Each channel is read with an arithmetic shift right and a mask `& 0xFF`. Both
  operators are written out over 32-bit two's complement: `>>` is floor division by a
  power of two, with the distance masked to five bits, and `&` is defined bit by bit. The
  proofs show four things. Each channel is a byte. Each channel is the matching byte of
  the colour's 32-bit pattern. The four channels rebuild the colour exactly. Packing four
  channels and extracting them again returns the same channels.
- `IsometricDrawing` (`isometric_drawing.dfy`, with `wrappers.dfy`). This module covers
  the following:
  - the kind lookup `getType`, which maps nine library class names to those classes and
    any other name to the object's own class;
  - `pathToList`, which turns a path into a dictionary numbered from 1;
  - `CreatePath`, which makes one slot per list element and one error per element that is
    not a point;
  - the guards of the nine `Create*` factories and the five transforms. A guard either
    produces the call handed to the library, or returns null and logs one error;
  - the component object: its settings and defaults, its optional view with the items
    added to it, `Initialize`, `Clear`, `AddShape`, `AddPath` and the click handler.

  The events the component dispatches (`OnErrorOccurred`, `OnClick`, `OnClear`) form an
  append-only log, `events`. Objects crossing the component's `Object` parameters are
  the datatype `Value`. A path holds `Option<Point>` slots because a Java `Point[]` may
  hold nulls. Point coordinates are Java doubles, modelled as reals. The model never
  computes with them.

An unknown kind is not an error: `getType` falls back to the object's own class
(IsometricDrawing.java:65-66), and `KindOfName` returns `Other(name)`.

## Model

| member | source | states |
|---|---|---|
| `ColorUtils.ShiftRight` | src/me/aemo/isometricdrawing/ColorUtils.java:12 | Java `>>` on an int keeps the sign. For a non-negative value the result lies in 0..x. For a negative value it lies in x..-1. |
| `ColorUtils.MaskLowByte` | src/me/aemo/isometricdrawing/ColorUtils.java:12 | `x & 0xFF` equals x mod 256 for every int, negative ones included. |
| `ColorUtils.AndLowMask` | src/me/aemo/isometricdrawing/ColorUtils.java:32 | Masking with k one-bits keeps the value modulo 2^k. This holds for negative values too, read in two's complement. |
| `ColorUtils.GetRed` | src/me/aemo/isometricdrawing/ColorUtils.java:11-13 | `getRed` is in 0..255 and equals bits 16-23 of the colour's 32-bit pattern. |
| `ColorUtils.GetGreen` | src/me/aemo/isometricdrawing/ColorUtils.java:21-23 | `getGreen` is in 0..255 and equals bits 8-15 of the 32-bit pattern. |
| `ColorUtils.GetBlue` | src/me/aemo/isometricdrawing/ColorUtils.java:31-33 | `getBlue` is in 0..255, equals bits 0-7, and equals the colour mod 256. So it depends only on the low byte. |
| `ColorUtils.GetAlpha` | src/me/aemo/isometricdrawing/ColorUtils.java:41-43 | `getAlpha` is in 0..255 and equals bits 24-31 of the 32-bit pattern. |
| `ColorUtils.AlphaSign` | src/me/aemo/isometricdrawing/ColorUtils.java:41-43 | For a negative colour, `color >> 24` is negative and the mask adds back 256. Alpha is at least 128 exactly when the colour is negative. |
| `ColorUtils.Reassembly` | src/me/aemo/isometricdrawing/ColorUtils.java:8-43 | alpha·2^24 + red·2^16 + green·2^8 + blue equals the colour read as an unsigned 32-bit number. |
| `ColorUtils.ExtractPacked` | src/me/aemo/isometricdrawing/ColorUtils.java:8-43 | Packing channels a, r, g, b (each 0..255) into an ARGB int and extracting them returns a, r, g, b. |
| `ColorUtils.PackExtracted` | src/me/aemo/isometricdrawing/ColorUtils.java:8-43 | Packing the four extracted channels of any int returns that int. |
| `IsometricDrawing.KindOfName` | src/me/aemo/isometricdrawing/IsometricDrawing.java:46-67 | The switch returns a library class exactly for the nine names. Every other name gives `Other(name)`, never an error. The returned class always has the given simple name. |
| `IsometricDrawing.GetType` | src/me/aemo/isometricdrawing/IsometricDrawing.java:45-68 | The class's simple name is the object's own simple name. It is a library class exactly when that name is one of the nine. |
| `IsometricDrawing.KindRoundTrip` | src/me/aemo/isometricdrawing/IsometricDrawing.java:45-68 | Each class the lookup can return is recovered from its own simple name: the nine kinds, and `Other` with any name outside the nine. |
| `IsometricDrawing.CreateColor` | src/me/aemo/isometricdrawing/IsometricDrawing.java:210-212 | The result is an RGB colour whose red, green and blue are bytes 2, 1 and 0 of the colour's 32-bit pattern, so each is in 0..255. |
| `IsometricDrawing.CreateColorWithAlpha` | src/me/aemo/isometricdrawing/IsometricDrawing.java:215-217 | The result is an RGBA colour whose red, green, blue and alpha are bytes 2, 1, 0 and 3 of the colour's 32-bit pattern, so each is in 0..255. |
| `IsometricDrawing.CreateColorRGB` | src/me/aemo/isometricdrawing/IsometricDrawing.java:224-227 | The three ints go to the RGB constructor unchanged. There is no 0..255 check, as in the source. |
| `IsometricDrawing.CreateColorRGBA` | src/me/aemo/isometricdrawing/IsometricDrawing.java:219-222 | The four ints go to the RGBA constructor unchanged, in the order r, g, b, a. There is no 0..255 check, as in the source. |
| `IsometricDrawing.CreateColorFromPacked` | src/me/aemo/isometricdrawing/IsometricDrawing.java:209-227 | For a packed ARGB int, `CreateColorWithAlpha` gives the same colour as `CreateColorRGBA` on its channels. `CreateColor` gives the same as `CreateColorRGB`. |
| `IsometricDrawing.Construct` | src/me/aemo/isometricdrawing/IsometricDrawing.java:244-354 | A factory succeeds exactly when its origin is a point, and it then passes the kind, origin and parameters on unchanged. Otherwise the error's `from` is "Create" followed by the kind's name. |
| `IsometricDrawing.Dispatch` | src/me/aemo/isometricdrawing/IsometricDrawing.java:387-550 | A transform goes ahead exactly when the object is non-null and, for all but `Translate`, the origin is a point. The call then goes to the class `getType` gives, with the right method name and the original arguments. Otherwise the error is that transform's guard error. |
| `IsometricDrawing.PathToList` | src/me/aemo/isometricdrawing/IsometricDrawing.java:142-151 | The dictionary's key set is exactly 1..n. Key i+1 holds `[x, y, z]` of point i, so point order is preserved. |
| `IsometricDrawing.PathErrorsShape` | src/me/aemo/isometricdrawing/IsometricDrawing.java:281-287 | Every error `CreatePath` raises is the bad-point error, with exactly one per element that is not a point. No error is raised exactly when every element is a point. |
| `IsometricDrawing.IsometricDrawing.constructor` | src/me/aemo/isometricdrawing/IsometricDrawing.java:32-44 | Defaults: sort is on; cull, bounds check, reverse lookup and radius lookup are off; touch radius 1; background transparent; no view; no events. |
| `IsometricDrawing.IsometricDrawing.Sort` | src/me/aemo/isometricdrawing/IsometricDrawing.java:78-80 | Only the sort setting changes. |
| `IsometricDrawing.IsometricDrawing.Cull` | src/me/aemo/isometricdrawing/IsometricDrawing.java:84-86 | Only the cull setting changes. |
| `IsometricDrawing.IsometricDrawing.BoundsCheck` | src/me/aemo/isometricdrawing/IsometricDrawing.java:90-92 | Only the bounds-check setting changes. |
| `IsometricDrawing.IsometricDrawing.ReverseSortForLookup` | src/me/aemo/isometricdrawing/IsometricDrawing.java:96-98 | Only the reverse-lookup setting changes. |
| `IsometricDrawing.IsometricDrawing.TouchRadiusLookup` | src/me/aemo/isometricdrawing/IsometricDrawing.java:102-104 | Only the radius-lookup setting changes. |
| `IsometricDrawing.IsometricDrawing.TouchRadius` | src/me/aemo/isometricdrawing/IsometricDrawing.java:108-110 | Only the touch radius changes. It becomes the given int, as a double. |
| `IsometricDrawing.IsometricDrawing.BackgroundColor` | src/me/aemo/isometricdrawing/IsometricDrawing.java:114-116 | Only the background colour changes. |
| `IsometricDrawing.IsometricDrawing.Initialize` | src/me/aemo/isometricdrawing/IsometricDrawing.java:119-129 | The view becomes a new, empty view configured with the current settings. Nothing else changes. |
| `IsometricDrawing.IsometricDrawing.RaiseError` | src/me/aemo/isometricdrawing/IsometricDrawing.java:72-74 | Exactly one error event is appended to the log. |
| `IsometricDrawing.IsometricDrawing.Clear` | src/me/aemo/isometricdrawing/IsometricDrawing.java:159-179 | With no view, "Isometric Drawing view is null" is logged and nothing else changes. With a view but no parent, the parent error is logged and the view is kept as it was. Otherwise the view becomes null and one clear event follows. |
| `IsometricDrawing.IsometricDrawing.AddShape` | src/me/aemo/isometricdrawing/IsometricDrawing.java:188-196 | With no view, nothing changes and no error is logged. With a view and a non-shape, one error is logged and nothing is added. Otherwise exactly one item is appended. |
| `IsometricDrawing.IsometricDrawing.AddPath` | src/me/aemo/isometricdrawing/IsometricDrawing.java:199-207 | The same three outcomes as `AddShape`, for paths. |
| `IsometricDrawing.IsometricDrawing.Create` | src/me/aemo/isometricdrawing/IsometricDrawing.java:244-354 | Every factory whose origin is not a point returns null and logs exactly its own error. Otherwise it returns the construction and logs nothing. |
| `IsometricDrawing.IsometricDrawing.Transform` | src/me/aemo/isometricdrawing/IsometricDrawing.java:387-550 | `Translate` with a null object, and `Scale`/`RotateX`/`RotateY`/`RotateZ` unless the object is non-null and the origin is a point, return null and log exactly the guard's error. Otherwise they return the dispatched call and log nothing. |
| `IsometricDrawing.IsometricDrawing.CreatePath` | src/me/aemo/isometricdrawing/IsometricDrawing.java:278-289 | The result is a path as long as the list. Each point sits at its own index and every other element leaves a null slot. The errors, one per non-point in list order, are appended. There is no early return. |
| `IsometricDrawing.IsometricDrawing.ItemClicked` | src/me/aemo/isometricdrawing/IsometricDrawing.java:132-134 | One click event is appended. Its type is the clicked object's simple name, and its dictionary is the path's dictionary as `PathToList` specifies it. |

## Left out

- The geometry of the external isometric library is not modelled: projection, the translate, scale and rotate maths, and the shape and path constructors. A transform or factory returns the call it hands to the library (`Invocation`, `Construction`), not the library's result.
- Transform: the reflective `getMethod`/`invoke` and the exceptions they raise are not modelled (`NoSuchMethodException`, and any other exception an invocation throws). So the "~ Method" and "Error invoking method" error paths are missing.
- `PointOrigin`, `CreatePointXY`, `CreatePointXYZ` and `ShapeExtrude` are omitted because they only call the library. `MathPI` is a floating-point constant. `DefaultValue` returns the constant 1.
- The `Color` class is external. `CreateColor*` return the constructor's argument lists (`ColorArgs`), and the channels the plain RGB form defaults are not modelled.
- Initialize: the Android plumbing is omitted (creating the `IsometricView`, `LayoutParams`, `removeAllViews` when the host has more than one child, `addView`). The model keeps the settings copied into the view and its item list.
- Clear: `getParent()` reads the Android view tree, so it becomes the parameter `hasParent`. `removeView` and `isometricView.clear()` are not modelled separately, since the view is simply dropped. `OnClear` is posted to the UI thread by `runOnUiThread`; the model appends it to the log at once.
- ItemClicked: the listener is registered inside `Initialize`, and that registration is not modelled. The handler requires a non-null original object and takes its path as points that are never null. The source throws a NullPointerException in both cases: at IsometricDrawing.java:46 (`main.getClass()`) for a null object, and at :147 (`point.getX()`) for a null point.
- PathToList: takes `seq<Point>`, so null points are ruled out by type. A path from `CreatePath` may hold null slots, and `AddPath` accepts such a path. On a null point the source throws a NullPointerException at IsometricDrawing.java:147; the model does not capture that exception.
- Value: class names are free strings, so `Value` admits objects no program can build. Examples are `ShapeValue("Circle")`, although `Circle` is a library path, and `PathValue("Point", ...)`. `AddShape` and `AddPath` decide by constructor only (shape or path), not by class name.
- `EventDispatcher.dispatchEvent` is not modelled. The events become entries of the ordered log `events`.
- AddShape, AddPath: the unchecked `(Color)` cast is not modelled. Neither is the unchecked `(Path)` cast in `ShapeExtrude`. Their failure is a Java runtime exception.
- The commented-out `WithTranslate`, `WithScale` and `WithRotate*` blocks are dead code.
- Create: the numeric arguments of each factory (ints or doubles in Java) are one list of reals whose length is the Java signature's arity.
