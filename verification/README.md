# karlib particle engine and utilities, in Dafny

This project models the particle simulation engine of karlib, a small TypeScript 2D
canvas library, together with the deterministic utilities around it, and proves
properties of that model.

- `particle_emitter.dfy` (module `Emitters`): the `ParticleEmitter` class.
  - Its constructor defaults.
  - Its per-tick `update`: the spawn timer, the guarded spawn loop, ageing, the back-to-front cull into the pool, and the one-shot completion.
  - `spawn_wave` with its placement geometry (rectangle, torus, burst), `update_spawn_pos`, `set_emit`, `dispose` and `draw`.
- `particle.dfy` (module `Particles`): the `Particle` class.
  - Construction from the tagged behaviour list.
  - `reset`, `update` (speed mode and acceleration mode, with the speed cap), `is_alive`, and `seed_rotation_from_behaviors`.
- `behaviors.dfy` (module `Behaviors`): the behaviour sum type and how a particle's look is resolved from it.
  - Static variants win over curves.
  - A random texture or animation is picked, and an empty random list fails.
- `key_frames.dfy` (module `KeyFrames`): `hex_to_rgb`, `rgb_to_hex` and the key-frame sampler `sample_key_frames`, for numbers and for colours.
- `pool_bag.dfy` (module `Pooling`): `PoolBag`, an insertion-ordered set of idle objects with three hooks.
- `animated_texture.dfy` (module `Animation`): the frame index, loop and ping-pong state machine of `AnimatedTexture`.
- `tween.dfy` (module `Tweening`): the easing table and `Tween`'s per-owner elapsed-time map.
- `dispose_bag.dfy` (module `Disposal`): `DisposeBag`.
- `color_utils.dfy` (module `ColorUtils`): `hex_to_string` and `string_to_hex`.
  - `js_text.dfy` (module `JsText`) supplies the JavaScript string and number built-ins these need: `trim`, `toString(16)`, `padStart`, `parseInt(…, 16)`.
- `texture_utils.dfy` (module `TextureUtils`): `get_texture_name_from_file_path`.
- `math_utils.dfy` (module `MathUtils`): rectangle collision, squared distance, `copy_rect`, `copy_point` and `rotate_point`.
- `vector.dfy` (module `Vectors`): the in-place `Vector` class.
- `camera_utils.dfy` (module `CameraUtils`): the visibility tests, with their guards and unrotated paths.
- `assert_utils.dfy` (module `AssertUtils`): the assertion guards.
- `numeric.dfy` (module `Numeric`) and `wrappers.dfy` (module `Wrappers`): shared numeric helpers, the random stream, and the `Option`, `Result` and `Outcome` types.

Modelling conventions:

- **Numbers:** JavaScript numbers are `real`. `Infinity` is the `Infinite` case of `Ext`.
- **`Math.random()`:** a `Random` object holds a caller-supplied stream of values in [0, 1) and counts how many have been drawn, so every draw is explicit.
- **Trigonometry and `Math.sqrt`:** these are caller-supplied functions (`MathFns`). Lemmas that need them assume only `cos² + sin² = 1` or `sqrt(x)² = x` for `x >= 0`.
- **Callbacks:** an animation-complete callback is modelled as a flag (is one set?) plus a counter of the calls made to it.
- **Thrown errors:** these become `Outcome.Fail` or `Result.Failure` carrying the thrown message.
- **Imported helpers:** `particle.ts` imports `clamp`, `lerp`, `to_radians`, `to_degrees` and `random_item_from_array` from a module that is not part of this model.
  - They are modelled as `Math.min(Math.max(x, lo), hi)`, `a + (b - a) * t`, the usual degree and radian conversions, and the item at index `floor(u * n)`.
- **The emitter's pool:** the emitter imports its `PoolBag` from an external package. It is assumed to behave as `src/pool_bag.ts` does.

Where the code and its documentation disagree, the model follows the code:

- The key-frame sampler extrapolates when no segment brackets `t`, because it uses the first-to-last span. A zero span is replaced by `1e-6` (see `KeyFrames.Extrapolates` and `KeyFrames.ZeroSpanExtrapolates`).
- `spawn_wave` checks `max_particles` once per wave, so the active count can exceed the cap (see `Emitters.SpawnOvershoots`).
- An emitter lifetime is infinite only when absent or exactly `-1`. Other negative values become 0.
- The comment on `set_on_animation_complete` says the callback is never invoked for a lifetime of `-1`. The code does invoke it once `emit` is false and every particle is gone.
- In speed mode `update` adds the rotation step twice per tick.
- A static scale or speed range is sampled afresh on every call.
- A burst places the i-th particle of each wave at unit distance from the emitter position, with angle `start + spacing * i` (in radians).
- An animation behaviour without `loop` plays once.
- `hex_to_string` emits lower-case digits; its documentation example shows upper case.

## Model

| member | source | states |
|---|---|---|
| AssertUtils.AssertExists | src/assert_utils.ts:9-13 | fails, with the given message, exactly when the value is undefined or null |
| AssertUtils.AssertNever | src/assert_utils.ts:22-24 | always fails with the "unhandled case" message |
| AssertUtils.AssertTrue | src/assert_utils.ts:34-38 | passes exactly when the condition holds; otherwise fails with the given message |
| AssertUtils.Unwrap | src/assert_utils.ts:49-52 | returns a defined value unchanged; fails with the message on undefined or null |
| AssertUtils.FalsyValuesExist | src/assert_utils.ts:9-13 | `0`, `""` and `false` pass `assert_exists` and `unwrap` |
| Numeric.Clamp | src/particle_emitter/particle.ts:24 | the result lies in [lo, hi], equals x inside the range and the nearer bound outside it |
| Numeric.LerpBetween | src/particle_emitter/particle.ts:188 | lerp gives a at 0 and b at 1, and lies between a and b for t in [0,1] |
| Numeric.Round | src/particle_emitter/particle.ts:41 | `Math.round`: the nearest integer, halves rounding up |
| Numeric.Trunc | src/animated_texture.ts:90 | `Math.trunc`: rounds toward zero |
| Numeric.WrapInt32 | src/particle_emitter/particle.ts:14 | the 32-bit two's-complement wrap: in range, congruent modulo 2^32, identity on int32 values |
| Numeric.Random.Next | src/particle_emitter/particle.ts:188 | each `Math.random()` returns the next value of the stream and consumes it |
| ColorUtils.ColorBits | src/color_utils.ts:9 | the int32-truncated colour clamped to [0, 0xFFFFFF]: negatives give 0 and larger values give 0xFFFFFF |
| ColorUtils.HexToString | src/color_utils.ts:7-11 | `#` followed by exactly six lower-case hex digits whose value is the clamped colour |
| ColorUtils.NumberFromHexLiteral | src/color_utils.ts:31 | `Number("0x" + hex)` is a number exactly when the digits are a non-empty run of hex digits |
| ColorUtils.ExpandShorthand | src/color_utils.ts:27-29 | three digits are doubled one by one into six; any other length is unchanged |
| ColorUtils.DecPrefix | src/color_utils.ts:35 | the longest run of decimal digits at the start |
| ColorUtils.Expect | src/color_utils.ts:35 | matching one expected character consumes input |
| ColorUtils.Component | src/color_utils.ts:35 | matching one `\d{1,3}` component consumes input |
| ColorUtils.RgbNumber | src/color_utils.ts:36-44 | the rgb branch always gives a non-negative number, and 0 when the pattern does not match |
| ColorUtils.RoundTrip | src/color_utils.ts:7-45 | `string_to_hex(hex_to_string(c)) == c` for every integer c in [0, 0xFFFFFF] |
| ColorUtils.OutOfRangeColours | src/color_utils.ts:9 | negative colours print as `#000000` and too-large ones as `#ffffff` |
| ColorUtils.PaddedBlack | src/color_utils.ts:10 | black is padded to six zeros |
| ColorUtils.NatToHexWhite | src/color_utils.ts:10 | 0xFFFFFF prints as `ffffff` |
| ColorUtils.IgnoresSurroundingSpace | src/color_utils.ts:20 | leading and trailing white space does not change the parse |
| ColorUtils.StringToHexByHash | src/color_utils.ts:23-32 | a `#` string parses as the hex literal of its digits, after shorthand expansion |
| ColorUtils.ShorthandMatchesLongForm | src/color_utils.ts:27-29 | `#RGB` parses to the same value as `#RRGGBB` |
| ColorUtils.NonHexIsNaN | src/color_utils.ts:31 | a `#` string with a non-hex digit yields NaN |
| ColorUtils.DecPrefixOfDigits | src/color_utils.ts:35 | the digit run of digits followed by a non-digit is exactly those digits |
| ColorUtils.ComponentOfDigits | src/color_utils.ts:35 | one to three digits form a component with their decimal value |
| ColorUtils.ComponentTooLong | src/color_utils.ts:35 | four or more digits do not match a component |
| ColorUtils.ExpectAtStart | src/color_utils.ts:35 | the expected character at the front is consumed |
| ColorUtils.MatchRgbAfterKeyword | src/color_utils.ts:35 | after `rgb(` or `rgba(` the pattern matches exactly the argument list |
| ColorUtils.StringToHexByRgb | src/color_utils.ts:34-44 | a trimmed string not starting with `#` goes through the rgb pattern |
| ColorUtils.RgbBlueOfDigits | src/color_utils.ts:35 | the last component followed by `)` is read with its decimal value |
| ColorUtils.RgbGreenBlueOfDigits | src/color_utils.ts:35 | the last two components are read with their decimal values |
| ColorUtils.RgbArgsOfDigits | src/color_utils.ts:35-39 | three comma-separated components of 1 to 3 digits are read with their decimal values |
| ColorUtils.RgbAfterKeyword | src/color_utils.ts:35-41 | `rgb(…)` parses to the rgb value of its argument list |
| ColorUtils.RgbComponents | src/color_utils.ts:35-41 | `rgb(r,g,b)` gives `(r<<16)+(g<<8)+b`, with no clamping of components to 255 |
| ColorUtils.RgbComponentTooLong | src/color_utils.ts:35-44 | a component of four or more digits makes the whole string 0 |
| ColorUtils.ColourNameIsZero | src/color_utils.ts:44 | any string whose trimmed form starts with neither `#` nor `rgb` (in any case), such as a colour name, yields 0 |
| JsText.TrimStart | src/color_utils.ts:20 | a suffix of the input that drops only leading white space and starts with a non-space |
| JsText.TrimEnd | src/color_utils.ts:20 | a prefix of the input that drops only trailing white space and ends with a non-space |
| JsText.TrimUnpadded | src/color_utils.ts:20 | trimming leaves a string without surrounding space unchanged |
| JsText.TrimStartSkipsSpace | src/color_utils.ts:20 | leading white space does not affect `trimStart` |
| JsText.TrimEndSkipsSpace | src/color_utils.ts:20 | trailing white space does not affect `trimEnd` |
| JsText.TrimIgnoresSurroundingSpace | src/color_utils.ts:20 | `trim` of a string with added surrounding space equals `trim` of the string |
| JsText.TrimStartAppend | src/color_utils.ts:20 | appending white space after content carries through `trimStart` |
| JsText.HexValue | src/color_utils.ts:10 | the value of k hex digits is below 16^k |
| JsText.HexValueAppend | src/color_utils.ts:10 | the value of concatenated digit strings is positional |
| JsText.HexValueLeadingZeros | src/color_utils.ts:10 | leading zeros do not change a hex value |
| JsText.ZerosValue | src/color_utils.ts:10 | a run of zeros has value 0 |
| JsText.Repeat | src/color_utils.ts:10 | k copies of one character |
| JsText.NatToHex | src/color_utils.ts:10 | `toString(16)`: lower-case hex digits, without leading zeros, whose value is n |
| JsText.NatToHexLength | src/color_utils.ts:10 | a number below 16^k takes at most k digits |
| JsText.PadStart | src/color_utils.ts:10 | `padStart`: a string already wide enough is unchanged; otherwise fill characters are prepended up to the width |
| JsText.PaddedHex | src/color_utils.ts:10 | zero-padding `toString(16)` to a sufficient width gives exactly that many lower-case digits with value n |
| JsText.HexPrefix | src/particle_emitter/particle.ts:13 | `parseInt(…, 16)` reads the longest run of hex digits at the front |
| JsText.ParseIntHexOfDigits | src/particle_emitter/particle.ts:13 | `parseInt` of a run of hex digits is its value |
| JsText.HexPrefixOfHex | src/particle_emitter/particle.ts:13 | the hex run of a string made only of hex digits is the whole string |
| MathUtils.CollidingIffOverlap | src/math_utils.ts:7-13 | collision holds exactly when both axis intervals meet, and it is symmetric in the two rectangles |
| MathUtils.TouchingRectsCollide | src/math_utils.ts:7-13 | rectangles that only touch along an edge collide |
| MathUtils.SelfCollision | src/math_utils.ts:7-13 | a rectangle collides with itself exactly when its width and height are non-negative |
| MathUtils.DistanceSquare | src/math_utils.ts:48-52 | the squared distance is never negative |
| MathUtils.DistanceSquareSymmetric | src/math_utils.ts:48-52 | the squared distance is symmetric, and 0 from a point to itself |
| MathUtils.Coalesce | src/math_utils.ts:58 | `src.x ?? dest.x`: the source value when defined, otherwise the destination's |
| MathUtils.OverlayRect | src/math_utils.ts:57-62 | an empty source leaves the destination unchanged |
| MathUtils.OverlayPoint | src/math_utils.ts:67-70 | an empty source leaves the destination unchanged |
| MathUtils.OverlayRectLaws | src/math_utils.ts:57-62 | copying the same source twice equals copying it once; a complete source replaces the destination |
| MathUtils.CopyRect | src/math_utils.ts:57-62 | each field of `dest` takes the source's field when defined and keeps its own otherwise |
| MathUtils.CopyPoint | src/math_utils.ts:67-70 | each coordinate of `dest` takes the source's when defined and keeps its own otherwise |
| MathUtils.RotatePoint | src/math_utils.ts:77-87 | angle 0 leaves the point unchanged; otherwise the point is rotated about the origin |
| MathUtils.UnitVecFromAngle | src/math_utils.ts:28-33 | a unit vector from an angle has squared length 1 |
| CameraUtils.UnrotatedRectVisible | src/camera_utils.ts:84-107 | on each axis the screen interval, with its endpoints ordered, meets the padded canvas |
| CameraUtils.IsRectInCameraView | src/camera_utils.ts:66-131 | non-positive size or zero zoom gives false; with rotation 0 the closed overlap test; the rotated path is not modelled |
| CameraUtils.IsPointInCameraView | src/camera_utils.ts:136-171 | zero zoom gives false; with rotation 0, true exactly when both screen coordinates lie in the padded canvas |
| CameraUtils.TargetVisibleIffOffsetInside | src/camera_utils.ts:149-160 | the camera target is visible exactly when the offset lies inside the padded canvas |
| CameraUtils.PointPaddingMonotone | src/camera_utils.ts:142-159 | more padding never makes a visible point invisible |
| CameraUtils.RectPaddingMonotone | src/camera_utils.ts:77-107 | more padding never makes a visible rectangle invisible |
| CameraUtils.ScreenBetween | src/camera_utils.ts:86-99 | mapping to the screen keeps a point between the images of two bounds, whatever the sign of zoom |
| CameraUtils.RectAroundTargetVisible | src/camera_utils.ts:84-107 | a rectangle containing a visible target is visible, with negative zoom too |
| TextureUtils.LastIndexOf | src/texture_utils.ts:84 | `lastIndexOf`: the last position of the character, or -1 when there is none |
| TextureUtils.BeforeQuery | src/texture_utils.ts:85 | the prefix before the first `?` or `#`, which itself holds neither |
| TextureUtils.StripExtension | src/texture_utils.ts:86 | removing the extension gives a prefix of the input |
| TextureUtils.TextureNameShape | src/texture_utils.ts:83-88 | the name is a prefix of the last path segment and holds no `/`, `?` or `#` |
| TextureUtils.LastSegment | src/texture_utils.ts:84 | the text after the last `/` holds no `/` |
| TextureUtils.CleanSegment | src/texture_utils.ts:85-86 | the cleaned name is a prefix of its segment and holds no `/`, `?` or `#` |
| TextureUtils.StripsLastExtensionOnly | src/texture_utils.ts:86 | only the final extension is removed (`a.tar.gz` becomes `a.tar`) |
| TextureUtils.KeepsUndottedAndTrailingDot | src/texture_utils.ts:86 | a name without a dot, or ending in a bare dot, is kept |
| TextureUtils.BeforeQueryUnmarked | src/texture_utils.ts:85 | a string without `?` or `#` passes the query cut unchanged |
| TextureUtils.LastSlash | src/texture_utils.ts:84 | the last `/` of `dir/tail` is the separator when the tail has none |
| TextureUtils.TextureNameOfPath | src/texture_utils.ts:83-88 | `dir/base.ext` names `base`, so tokens such as `{dpr}` survive |
| Vectors.PerpReverseCycles | src/vector.ts:47-52 | four `perp`s restore a vector, two make `reverse`, and `reverse` twice is the identity |
| Vectors.AddThenSub | src/vector.ts:95-110 | `add(o)` then `sub(o)` restores the vector, and the other way round too |
| Vectors.DotLaws | src/vector.ts:181-183 | `dot` is symmetric and `v.dot(v)` is never negative |
| Vectors.PerpOrthogonal | src/vector.ts:47-52 | `perp` is orthogonal to the vector and keeps its length |
| Vectors.ProjectNLinear | src/vector.ts:141-146 | projection onto an axis is linear |
| Vectors.ProjectNIdempotent | src/vector.ts:141-146 | for a unit axis, projecting twice equals projecting once |
| Vectors.ReflectNInvolution | src/vector.ts:167-174 | for a unit axis, reflecting twice is the identity |
| Vectors.Vector.constructor | src/vector.ts:19-22 | the vector holds the given coordinates |
| Vectors.Vector.Copy | src/vector.ts:29-33 | this becomes equal to the other vector |
| Vectors.Vector.Clone | src/vector.ts:39-41 | a new vector with equal coordinates |
| Vectors.Vector.Perp | src/vector.ts:47-52 | (x, y) becomes (y, -x) |
| Vectors.Vector.Reverse | src/vector.ts:71-75 | (x, y) becomes (-x, -y) |
| Vectors.Vector.Normalize | src/vector.ts:81-88 | divides by the length when it is positive; the zero vector is unchanged |
| Vectors.Vector.Add | src/vector.ts:95-99 | adds the other vector, read before the update |
| Vectors.Vector.Sub | src/vector.ts:106-110 | subtracts the other vector, read before the update |
| Vectors.Vector.Scale | src/vector.ts:118-122 | scales by (kx, ky), with ky defaulting to kx |
| Vectors.Vector.Project | src/vector.ts:129-134 | becomes the projection onto the other vector |
| Vectors.Vector.ProjectN | src/vector.ts:141-146 | becomes the projection onto the axis, taken as a unit vector |
| Vectors.Vector.Reflect | src/vector.ts:153-160 | becomes the reflection across the axis |
| Vectors.Vector.ReflectN | src/vector.ts:167-174 | becomes the reflection across the axis, taken as a unit vector |
| Vectors.Vector.Dot | src/vector.ts:181-183 | the dot product of the two vectors |
| Vectors.Vector.Len2 | src/vector.ts:189-191 | the squared length: never negative, and 0 for the zero vector |
| Tweening.EasingEndpoints | src/tween.ts:4-19 | every named easing, the piecewise bounce included, maps 0 to 0 and 1 to 1 |
| Tweening.NextElapsed | src/tween.ts:65-69 | the new elapsed time is clamped to [0, delay + duration] |
| Tweening.ElapsedNeverDecreases | src/tween.ts:65-69 | with a non-negative delta time the stored elapsed time never decreases |
| Tweening.TweenValue | src/tween.ts:71-86 | `from` before the delay, `to` at the end, otherwise the eased lerp with its argument in [0, 1) |
| Tweening.UnitRatio | src/tween.ts:82-83 | the easing argument lies in [0, 1) |
| Tweening.StoredTimeInRange | src/tween.ts:67-69 | the stored time lies in [0, delay + duration] |
| Tweening.FinishedTweenReturnsTarget | src/tween.ts:76-79 | at delay + duration the tween returns `to`; at the delay it starts from the eased 0 |
| Tweening.Tween.constructor | src/tween.ts:32-34 | no states, and delta time 1 |
| Tweening.Tween.Dispose | src/tween.ts:36-38 | removes every owner's entry |
| Tweening.Tween.SetDeltaTime | src/tween.ts:44-46 | sets the delta time and keeps the states |
| Tweening.Tween.To | src/tween.ts:59-87 | a non-positive duration returns `to` and leaves the map untouched; otherwise it stores the clamped elapsed time and returns the tween value |
| Tweening.Tween.Clear | src/tween.ts:95-97 | removes only that owner's entry |
| Pooling.Insert | src/pool_bag.ts:72 | `Set.add`: a new item goes to the end; one already held is neither duplicated nor moved |
| Pooling.Remove | src/pool_bag.ts:80 | `Set.delete`: the item is gone and every other item stays |
| Pooling.RemoveHead | src/pool_bag.ts:62-64 | deleting the oldest item leaves the rest in order |
| Pooling.AddAll | src/pool_bag.ts:37-41 | releasing a sequence of items keeps the pool a set |
| Pooling.ReturnHooks | src/pool_bag.ts:37-41 | growth calls `on_returned_to_pool` once per created item, in order |
| Pooling.DeleteHooks | src/pool_bag.ts:43-47 | shrinking calls `on_destroy_pool_object` on the oldest items, then on undefined |
| Pooling.Drop | src/pool_bag.ts:43-47 | dropping k items from the front leaves max(0, n - k) |
| Pooling.GrowCount | src/pool_bag.ts:37-41 | the growth loop runs while the count is below the size and ends at the first count reaching it |
| Pooling.ShrinkCount | src/pool_bag.ts:43-47 | the shrink loop runs while the count is above the size and ends at the first count not above it |
| Pooling.DropStep | src/pool_bag.ts:43-47 | one more deletion removes the head, or deletes undefined from an empty pool |
| Pooling.AddAllAppends | src/pool_bag.ts:37-41 | releasing fresh items appends them in order |
| Pooling.ResizeExact | src/pool_bag.ts:30-48 | a whole size n leaves exactly n items: growth appends fresh items and shrinking keeps the newest n |
| Pooling.PoolBag.constructor | src/pool_bag.ts:18-24 | an empty pool, with no hooks called |
| Pooling.PoolBag.Size | src/pool_bag.ts:26-28 | the number of idle items |
| Pooling.PoolBag.Dispose | src/pool_bag.ts:50-52 | empties the pool without calling any hook |
| Pooling.PoolBag.Get | src/pool_bag.ts:57-66 | an empty pool returns the factory's item with no hook; otherwise it takes the oldest item, calling `on_take_from_pool` once |
| Pooling.PoolBag.Release | src/pool_bag.ts:71-74 | inserts with set semantics, and always calls `on_returned_to_pool` |
| Pooling.PoolBag.Delete | src/pool_bag.ts:79-82 | removes the item if held, and always calls `on_destroy_pool_object` |
| Pooling.PoolBag.SetSize | src/pool_bag.ts:30-48 | a non-number fails with the thrown message and NaN does nothing; otherwise grow, then shrink, with the hooks logged |
| Pooling.PoolBag.Grow | src/pool_bag.ts:37-41 | the growth loop releases the factory's items while the count is below the size |
| Pooling.PoolBag.Shrink | src/pool_bag.ts:43-47 | the shrink loop deletes oldest first while the count is above the size |
| Disposal.ActionFor | src/dispose_bag.ts:26-32 | a function or a disposable (a non-null object with a function-valued `dispose`) gives a cleanup action; anything else gives none |
| Disposal.RunAll | src/dispose_bag.ts:57 | runs every entry once, in registration order |
| Disposal.AppendFresh | src/dispose_bag.ts:22-32 | a new entry gets an identity no earlier entry has |
| Disposal.AddedTwiceRunsTwice | src/dispose_bag.ts:22-32 | adding one callback twice registers two distinct entries, and disposal runs it twice |
| Disposal.DisposeBag.constructor | src/dispose_bag.ts:18-20 | an empty bag that is not disposed |
| Disposal.DisposeBag.Add | src/dispose_bag.ts:22-33 | fails once disposed and fails on other values; otherwise appends exactly one entry |
| Disposal.DisposeBag.Register | src/dispose_bag.ts:26-29 | appends one fresh entry |
| Disposal.DisposeBag.FromEvent | src/dispose_bag.ts:35-54 | fails once disposed; otherwise subscribes a wrapper and registers its removal |
| Disposal.DisposeBag.Dispose | src/dispose_bag.ts:56-60 | runs every entry in order, empties the list and marks the bag disposed, so a second call runs nothing |
| Animation.Consume | src/animated_texture.ts:196 | one loop is used up: a finite count drops by one and an infinite count stays infinite |
| Animation.AdvanceInRange | src/animated_texture.ts:190-231 | with two or more frames, one advance keeps the index in range, never raises the loop count, and stops exactly when it completes |
| Animation.RunInRange | src/animated_texture.ts:181-188 | any number of advances keeps the index in range and never raises the loop count |
| Animation.RunFiresAtMostOnce | src/animated_texture.ts:181-188 | stepping stops once playback stops, so completion fires at most once per update and leaves it stopped |
| Animation.ForeverNeverCompletes | src/animated_texture.ts:190-231 | an infinitely looping animation never completes and keeps playing |
| Animation.LastLoopCompletes | src/animated_texture.ts:191-202 | at the last frame with at most one loop left, it pins the index, stops and fires |
| Animation.ClampIndex | src/animated_texture.ts:92 | the index is clamped into [0, len - 1], or 0 when there are no frames |
| Animation.LoopsFrom | src/animated_texture.ts:90 | the loop count is infinite for Infinity, otherwise the truncated count |
| Animation.Scaled | src/animated_texture.ts:151-152 | the time added per update is non-negative |
| Animation.Carry | src/animated_texture.ts:156-159 | `floor(acc / fd)` is at least one step and leaves a remainder in [0, fd) |
| Animation.UpdateCompletesAtMostOnce | src/animated_texture.ts:143-160 | an update fires the callback at most once and keeps the index in range |
| Animation.AnimatedTexture.constructor | src/animated_texture.ts:68-93 | defaults; speed clamped at 0; loop count from the loop option; start index clamped into range; playing per autoplay |
| Animation.AnimatedTexture.CurrentFrameIndex | src/animated_texture.ts:95-97 | the current index, in range |
| Animation.AnimatedTexture.SetSpeed | src/animated_texture.ts:99-101 | speed becomes max(0, value) |
| Animation.AnimatedTexture.SetOnAnimationComplete | src/animated_texture.ts:103-105 | installs the callback and changes nothing else |
| Animation.AnimatedTexture.Stop | src/animated_texture.ts:113-118 | stops playback and rewinds to frame 0, direction 1, accumulator 0 |
| Animation.AnimatedTexture.Play | src/animated_texture.ts:120-122 | sets playing and changes nothing else |
| Animation.AnimatedTexture.Pause | src/animated_texture.ts:124-126 | clears playing and changes nothing else |
| Animation.AnimatedTexture.Dispose | src/animated_texture.ts:107-111 | stops, drops the frames and the callback |
| Animation.AnimatedTexture.GotoFrame | src/animated_texture.ts:131-137 | no-op without frames; otherwise clamps the index into range and zeroes the accumulator |
| Animation.AnimatedTexture.AdvanceIndex | src/animated_texture.ts:190-231 | one advance, as the forward or ping-pong state machine defines it, with the callback called on completion |
| Animation.AnimatedTexture.AnimationComplete | src/animated_texture.ts:177-179 | calls the callback when one is set |
| Animation.AnimatedTexture.AdvanceIndexBy | src/animated_texture.ts:181-188 | up to `steps` advances, stopping as soon as playback stops |
| Animation.AnimatedTexture.Update | src/animated_texture.ts:143-160 | no-op when paused, with at most one frame, a non-positive delta or zero speed; otherwise it accumulates and takes `floor(acc / fd)` steps, leaving acc in [0, fd) |
| KeyFrames.RemoveFirst | src/particle_emitter/particle.ts:12 | `replace("#", "")` removes only the first occurrence |
| KeyFrames.Channels | src/particle_emitter/particle.ts:14 | the shifted and masked channels lie in 0..255 and recompose the 24-bit value |
| KeyFrames.HexToRgb | src/particle_emitter/particle.ts:11-15 | every channel lies in 0..255 |
| KeyFrames.RgbToHexShape | src/particle_emitter/particle.ts:17-20 | `#` followed by six lower-case hex digits |
| KeyFrames.ByteHexDigits | src/particle_emitter/particle.ts:18 | a byte prints as two lower-case hex digits with its value |
| KeyFrames.RgbToHexValue | src/particle_emitter/particle.ts:17-20 | the six digits have the value r·65536 + g·256 + b |
| KeyFrames.HexRoundTrip | src/particle_emitter/particle.ts:11-20 | `hex_to_rgb(rgb_to_hex(c)) == c` for channels in 0..255 |
| KeyFrames.ChannelsOfBytes | src/particle_emitter/particle.ts:14 | splitting a composed value returns its channels |
| KeyFrames.ShorthandDoubles | src/particle_emitter/particle.ts:13 | a three-digit colour equals its doubled six-digit form |
| KeyFrames.FirstBracket | src/particle_emitter/particle.ts:29-31 | the first key pair bracketing t, or none when no pair does |
| KeyFrames.Segment | src/particle_emitter/particle.ts:28-31 | the chosen segment is two ordered key indices |
| KeyFrames.FindSegment | src/particle_emitter/particle.ts:28-31 | the search loop finds the first bracketing pair, or else the first and last keys |
| KeyFrames.Span | src/particle_emitter/particle.ts:32 | the span is never zero, because 0 is replaced by 1e-6 |
| KeyFrames.SampleNumber | src/particle_emitter/particle.ts:22-36 | the numeric sampler equals its reference definition |
| KeyFrames.SampleColor | src/particle_emitter/particle.ts:22-45 | the colour sampler equals its reference definition |
| KeyFrames.ShortLists | src/particle_emitter/particle.ts:24-26 | an empty list gives 0 and a one-key list gives its value for every t |
| KeyFrames.BracketedFraction | src/particle_emitter/particle.ts:30-33 | inside a bracketing segment the fraction lies in [0, 1], is 0 at its start and 1 at its end |
| KeyFrames.NumberInSegment | src/particle_emitter/particle.ts:28-36 | in a bracketing segment the value is a at a's time and b at b's time, and lies between them |
| KeyFrames.PassesThroughKeys | src/particle_emitter/particle.ts:28-36 | with increasing times the sampler returns each key's value at its time |
| KeyFrames.Extrapolates | src/particle_emitter/particle.ts:28-33 | for any list of two or more keys, a t in [0, 1] that no segment brackets gives the value on the line through the first and last keys |
| KeyFrames.ZeroSpanExtrapolates | src/particle_emitter/particle.ts:32-33 | when the first and last keys share a time, the span becomes 1e-6, so an unbracketed t moves the fraction a million times its distance from that time |
| KeyFrames.RoundedLerpByte | src/particle_emitter/particle.ts:41-43 | a rounded lerp of two bytes with t in [0, 1] is a byte |
| KeyFrames.ColorInSegment | src/particle_emitter/particle.ts:37-45 | in a bracketing segment the colour is `#` followed by six lower-case hex digits |
| KeyFrames.ChannelsMixSeparately | src/particle_emitter/particle.ts:38-44 | each channel is lerped and rounded on its own |
| KeyFrames.WholeLifeSegment | src/particle_emitter/particle.ts:28-44 | a 0-to-1 colour list gives the mixed colour at t |
| KeyFrames.UnitFraction | src/particle_emitter/particle.ts:28-33 | on a 0-to-1 list the fraction is t itself |
| KeyFrames.ColorAtSegment | src/particle_emitter/particle.ts:28-44 | the colour is the rounded channel mix of the chosen segment's ends |
| Behaviors.FindIndex | src/particle_emitter/particle.ts:84 | `findIndex`: the first entry with the tag, or none when no entry has it |
| Behaviors.Find | src/particle_emitter/particle.ts:84 | `find`: an entry of the list with the tag |
| Behaviors.FindNone | src/particle_emitter/particle.ts:84 | `find` gives nothing exactly when no entry has the tag |
| Behaviors.NumberValue | src/particle_emitter/particle.ts:84-118 | a value exists exactly when a source is configured, and a uniform range yields a value in the range |
| Behaviors.ColorValue | src/particle_emitter/particle.ts:93-100 | a colour exists exactly when a colour source is configured |
| Behaviors.Pick | src/particle_emitter/particle.ts:127-133 | `random_item_from_array`: an item of the list, or nothing for an empty list |
| Behaviors.PickInRange | src/particle_emitter/particle.ts:130 | floor(u·n) is a valid index |
| Behaviors.AnimOptions | src/particle_emitter/particle.ts:135-160 | the animation loops forever only when `loop` is true, otherwise once, with the given frame duration and frames |
| Behaviors.OmittedLoopPlaysOnce | src/particle_emitter/particle.ts:140 | without `loop` an animation plays once |
| Behaviors.TextureOf | src/particle_emitter/particle.ts:120-133 | `textureRandom` beats `textureSingle`; an empty random list fails with the thrown message |
| Behaviors.AnimOf | src/particle_emitter/particle.ts:135-160 | `animatedRandom` beats `animatedSingle`; an empty random list fails with the thrown message |
| Behaviors.Resolve | src/particle_emitter/particle.ts:120-160 | the texture failure comes first, then the animation failure; otherwise both choices are resolved |
| Behaviors.ResolvableIff | src/particle_emitter/particle.ts:120-160 | resolution succeeds exactly when no random texture or animation list is empty |
| Behaviors.StaticBeatsCurve | src/particle_emitter/particle.ts:84-118 | a static alpha, scale, speed or non-empty colour wins over the curve, whatever the order |
| Behaviors.FindFirstOfTag | src/particle_emitter/particle.ts:84 | within one tag the first entry wins |
| Behaviors.EmptyStaticColorKeepsCurve | src/particle_emitter/particle.ts:93-100 | an empty static colour leaves the colour curve in force |
| Particles.LifeFraction | src/particle_emitter/particle.ts:275 | a living particle's age fraction lies in [0, 1] |
| Particles.SpeedOf | src/particle_emitter/particle.ts:276 | speed 1 without a speed sampler, otherwise the sampled speed |
| Particles.MaxSpeedOf | src/particle_emitter/particle.ts:210 | an absent or 0 `max_speed` means no cap |
| Particles.ClampBound | src/particle_emitter/particle.ts:253-263 | within the cap the velocity is kept; with a finite positive cap the speed never exceeds it and an excess is scaled onto it |
| Particles.ClampHitsCap | src/particle_emitter/particle.ts:256-262 | scaling an over-fast velocity by max/len gives exactly the cap |
| Particles.Moved | src/particle_emitter/particle.ts:238-282 | `update` always ages the particle; a dead one changes nothing else; the other settings are kept |
| Particles.RenderOf | src/particle_emitter/particle.ts:284-297 | the render options carry the position and the rotation in degrees, plus alpha, scale and tint exactly when configured |
| Particles.RotationStaticBeatsRotation | src/particle_emitter/particle.ts:328-339 | `rotationStatic` overrides `rotation`; it draws one value in the range with no spin |
| Particles.ResetKin | src/particle_emitter/particle.ts:186-231 | age 0, the configured position, a lifetime in range, acceleration mode exactly when configured, otherwise zero motion and no cap |
| Particles.ResetForgets | src/particle_emitter/particle.ts:186-231 | a reset particle does not depend on its earlier state |
| Particles.DeadParticleOnlyAges | src/particle_emitter/particle.ts:239-242 | a dead particle only ages and stays dead |
| Particles.SpeedModeMotion | src/particle_emitter/particle.ts:244-245 | speed mode adds the rotation step twice, and moves at speed 1 without a speed sampler |
| Particles.AccelModeMotion | src/particle_emitter/particle.ts:247-272 | acceleration mode keeps the speed within a finite positive cap and faces the velocity when asked |
| Particles.DrawLook | src/particle_emitter/particle.ts:120-160 | resolves the look with the random draws it needs |
| Particles.DrawnLookFails | src/particle_emitter/particle.ts:127-160 | resolution fails exactly when a random texture or animation list is empty |
| Particles.CreateParticle | src/particle_emitter/particle.ts:80-174 | construction fails exactly when the look cannot be resolved; otherwise a fresh particle in its reset state |
| Particles.Particle.constructor | src/particle_emitter/particle.ts:80-174 | a particle with the given look, in its reset state |
| Particles.Particle.Reset | src/particle_emitter/particle.ts:186-231 | the state becomes the reset state, whatever it was |
| Particles.Particle.ResetLife | src/particle_emitter/particle.ts:187-192 | age 0, the configured position, a lifetime lerped over the configured range |
| Particles.Particle.StartMotion | src/particle_emitter/particle.ts:196-229 | acceleration mode when configured, otherwise speed mode |
| Particles.Particle.StartAcceleration | src/particle_emitter/particle.ts:197-221 | sets the acceleration, the cap and the velocity seeding |
| Particles.Particle.SeedRotationFromBehaviors | src/particle_emitter/particle.ts:326-360 | seeds rotation, spin and direction from the rotation behaviours |
| Particles.Particle.UpdateSpawnPos | src/particle_emitter/particle.ts:233-236 | sets the position and nothing else |
| Particles.Particle.SeedDirectionFromAngle | src/particle_emitter/particle.ts:318-324 | sets the direction from the angle, and the rotation too when it faces the velocity |
| Particles.Particle.Update | src/particle_emitter/particle.ts:238-298 | the state follows the motion model, and a living textured particle records its render options |
| Particles.Particle.Spin | src/particle_emitter/particle.ts:244-245 | the rotation speed gains its acceleration and the rotation advances |
| Particles.Particle.AccelerationStep | src/particle_emitter/particle.ts:247-272 | one acceleration-mode motion step |
| Particles.Particle.SpeedStep | src/particle_emitter/particle.ts:273-282 | one speed-mode motion step |
| Emitters.ShapeOf | src/particle_emitter/particle_emitter.ts:53 | the spawn shape is the first `spawnShape` entry, if any |
| Emitters.BurstOf | src/particle_emitter/particle_emitter.ts:52 | the burst is the first `spawnBurst` entry, if any |
| Emitters.EmitterLifeOf | src/particle_emitter/particle_emitter.ts:43-48 | infinite exactly when absent or -1; otherwise max(0, value) |
| Emitters.FrequencyOf | src/particle_emitter/particle_emitter.ts:40 | the frequency is floored at 0.0001 |
| Emitters.PeriodStep | src/particle_emitter/particle_emitter.ts:118-124 | each wave uses up exactly one period of the timer |
| Emitters.SpawnAccounting | src/particle_emitter/particle_emitter.ts:118-124 | each wave subtracts one period and adds one wave of particles, and the timer stays non-negative |
| Emitters.SpawnTimer | src/particle_emitter/particle_emitter.ts:118-124 | the timer loses one period per wave |
| Emitters.SpawnCount | src/particle_emitter/particle_emitter.ts:118-124 | the count gains one wave of particles per wave |
| Emitters.SpawnTimerNonNegative | src/particle_emitter/particle_emitter.ts:118-124 | after any wave the timer is non-negative |
| Emitters.SpawnWaveBound | src/particle_emitter/particle_emitter.ts:118-124 | the loop runs at most floor(timer / frequency) waves |
| Emitters.SpawnExit | src/particle_emitter/particle_emitter.ts:118-124 | when it exits with the other guards true, the timer is below the frequency |
| Emitters.SpawnCap | src/particle_emitter/particle_emitter.ts:118-124 | the count stays below max_particles + particles_per_wave |
| Emitters.SpawnOvershoots | src/particle_emitter/particle_emitter.ts:161-166 | for every cap and wave size, one period with `max - 1` active particles ends at `max - 1 + ppw`, the bound `SpawnCap` allows, which exceeds the cap when a wave holds more than one particle |
| Emitters.TorusAreaBounds | src/particle_emitter/particle_emitter.ts:186-190 | the sampled squared radius lies between the squared inner and outer radii |
| Emitters.TorusRadiusBounds | src/particle_emitter/particle_emitter.ts:186-190 | r0² ≤ rad² ≤ r1² for the sampled radius |
| Emitters.PolarDistance | src/particle_emitter/particle_emitter.ts:192-193 | a polar offset lies at its radius from the centre |
| Emitters.TorusPlacement | src/particle_emitter/particle_emitter.ts:178-199 | a torus spawn lies at the sampled radius from the shape's centre and sets the angle exactly when `affectRotation` is set |
| Emitters.BurstPlaced | src/particle_emitter/particle_emitter.ts:201-211 | a particle a burst has placed stands at unit distance from the emitter and faces along its burst angle, start + spacing·i (in radians) for a non-zero spacing |
| Emitters.BurstOnUnitCircle | src/particle_emitter/particle_emitter.ts:201-211 | a burst puts the i-th particle at unit distance with angle start + spacing·i (in radians) |
| Emitters.RectInside | src/particle_emitter/particle_emitter.ts:172-176 | a rectangle spawn lies inside the rectangle |
| Emitters.KeepFlags | src/particle_emitter/particle_emitter.ts:129-132 | a particle is kept exactly when it is still alive after this tick's ageing |
| Emitters.Kept | src/particle_emitter/particle_emitter.ts:129-139 | the survivors are exactly the kept particles |
| Emitters.Dropped | src/particle_emitter/particle_emitter.ts:129-139 | the released particles are exactly the dead ones |
| Emitters.KeptDroppedPartition | src/particle_emitter/particle_emitter.ts:129-139 | survivors and released particles partition the active list |
| Emitters.DrawOrder | src/particle_emitter/particle_emitter.ts:156-158 | only living, textured particles are drawn |
| Emitters.InfiniteEmitterNeverCompletes | src/particle_emitter/particle_emitter.ts:141-148 | an infinite-lifetime emitter that is still emitting never completes |
| Emitters.ParticleEmitter.constructor | src/particle_emitter/particle_emitter.ts:35-59 | defaults: 1 particle per wave, a cap of 20, a frequency floored at 0.0001, emit true, the lifetime rule |
| Emitters.ParticleEmitter.Dispose | src/particle_emitter/particle_emitter.ts:61-67 | empties the particles and the pool, stops emitting and drops the callback |
| Emitters.ParticleEmitter.SetEmit | src/particle_emitter/particle_emitter.ts:73-77 | sets `emit` and nothing else |
| Emitters.ParticleEmitter.SetOnAnimationComplete | src/particle_emitter/particle_emitter.ts:85-87 | installs the callback and nothing else |
| Emitters.ParticleEmitter.UpdateSpawnPos | src/particle_emitter/particle_emitter.ts:95-101 | sets the position, zeroes timer and age and clears `completed`, leaving the particles alone |
| Emitters.ParticleEmitter.Draw | src/particle_emitter/particle_emitter.ts:151-159 | draws nothing once completed; otherwise the living textured particles |
| Emitters.ParticleEmitter.Update | src/particle_emitter/particle_emitter.ts:107-149 | no change once completed; otherwise the spawn loop's timer and the age; the list after spawning extends the old list with pooled or new particles; the survivors are, in order, exactly the spawned particles still alive after ageing by the tick (judged on their age and lifetime after spawning, which for the old particles are their old ones); the rest are reset and released, in cull order, to the pool left after spawning, itself a suffix of the old pool; completion exactly when not emitting or expired and empty, with the callback called once; an emitter that emits with an infinite lifetime does not complete |
| Emitters.ParticleEmitter.Advance | src/particle_emitter/particle_emitter.ts:115-139 | the timer, spawning, ageing and culling of `update`, with the survivors exactly the spawned particles still alive after the tick and the dead released to the pool left after spawning |
| Emitters.ParticleEmitter.Spawn | src/particle_emitter/particle_emitter.ts:115-126 | the timer gains the tick, the spawn loop leaves the count `Spawning` gives, the old particles keep their place, age and lifetime, new ones come from the pool or the factory, the pool keeps a suffix, and the emitter ages |
| Emitters.ParticleEmitter.SpawnWaves | src/particle_emitter/particle_emitter.ts:118-124 | the guarded spawn loop leaves the timer and count the reference run gives, keeps the old particles in front, and leaves a suffix of the pool |
| Emitters.ParticleEmitter.SpawnWave | src/particle_emitter/particle_emitter.ts:161-219 | at the cap, changes nothing; below it, appends exactly one wave: pooled particles oldest first, then fresh ones, the j-th placed as `PlacementOf` says for index j with the draws starting at `offsets[j]` |
| Emitters.ParticleEmitter.WaveStep | src/particle_emitter/particle_emitter.ts:165-218 | one iteration of the wave loop advances the wave's progress by one particle, placed for index i with the last draws taken, and leaves the wave's earlier particles where they were placed |
| Emitters.ParticleEmitter.SpawnOne | src/particle_emitter/particle_emitter.ts:165-218 | appends the oldest pooled particle, or a fresh one when the pool is empty, placed as `PlacementOf` says for index i with the last draws taken |
| Emitters.ParticleEmitter.Take | src/particle_emitter/particle_emitter.ts:166 | `pool.get()`: the oldest pooled particle, or a newly created one |
| Emitters.ParticleEmitter.Place | src/particle_emitter/particle_emitter.ts:168-215 | sets position and direction from the spawn shape or burst |
| Emitters.ParticleEmitter.Cull | src/particle_emitter/particle_emitter.ts:129-139 | the survivors stay in order, every survivor is alive, the dead are reset and released to the pool |
| Emitters.ParticleEmitter.CullNext | src/particle_emitter/particle_emitter.ts:129-139 | one backward step of the cull loop keeps its progress invariant |
| Emitters.ParticleEmitter.CullAt | src/particle_emitter/particle_emitter.ts:130-138 | updates the particle at i, and removes, resets and releases it when it died |
| Emitters.ParticleEmitter.Tick | src/particle_emitter/particle_emitter.ts:131 | `update` ages the particle by delta |
| Emitters.ParticleEmitter.Recycle | src/particle_emitter/particle_emitter.ts:136 | the particle is released to the pool and reset |

## Left out

- Rendering: every `draw` method, the `Karlib` canvas context, texture loading and `kl.get_texture_from_name`. The emitter's `draw` is modelled as the list of particles it would draw.
- `TextureUtil`, spritesheet generation and texture caching in `texture_utils.ts`: canvas compositing and asynchronous I/O.
- The rotated paths of `is_rect_in_camera_view` and `is_point_in_camera_view`, and `get_camera_transform` and `transform_point`: these depend on `DOMMatrix`. The model returns `None` on those paths.
- `angle_between_two_points`, `distance_between_two_points`, and `Vector.rotate`, `len` and `from_angle`: these are trigonometry or square roots, about which nothing beyond the two laws above is assumed.
  - `Vector.from_point` is not among them: it is `new Vector(point.x, point.y)`, which `Vectors.Vector.constructor` models.
- Floating point: numbers are exact reals. No claim is made about IEEE-754 rounding of constants such as `0.0166`, `16.66` or `1e-6`.
- `MathUtils.RotatePoint` does not model a NaN angle.
- `Pooling.PoolBag.SetSize` does not model `Infinity`.
  - The factory's items are passed in, because the loops would call the factory without bound.
- A fractional `particles_per_wave` is not modelled: the wave loop runs `ceil` of it times, and the model takes a whole number.
- `Animation.AnimatedTexture.constructor` requires a positive `frame_duration`.
  - With 0, `update` divides by zero: it asks for infinitely many steps, or it turns the accumulator into NaN.
  - With a negative value the step count is never positive, so no frame advances.
  - Neither case is modelled.
- `Vectors.Vector.Project` requires a non-zero axis, where the source divides by zero and produces NaN.
- `Vectors.Vector.Reflect` requires a non-zero axis, for the same reason.
- Exceptions thrown by user callbacks, pool hooks or disposables are not modelled: every such call is assumed to return.
- If particle creation fails in the middle of an emitter update, the model reports the failure. It does not describe the partially updated state the exception leaves behind.
- The `AnimatedTexture` a particle creates for an animated look is never advanced in the library. The model keeps only its options.
- `Particle.dispose` is empty.
- `blend_mode` is carried to rendering only.
- `Emitters.ParticleEmitter.Update` ties the ages and lifetimes that decide who survives to the old state only for the particles that were already active. For particles spawned in the same tick it records them after placement without relating them to the pool's or the factory's state.
- `Emitters.ParticleEmitter.Tick` states only the ageing part of `Particle.update`. The full effect is `Particles.Particle.Update`.
- `Emitters.ParticleEmitter.Recycle` states only the pool insertion and the reset age and position. The full reset is `Particles.Particle.Reset`.
- `Disposal.DisposeBag.Dispose` does not model entries that a callback adds to the bag while it is being disposed. The bag is still open during the `forEach` at `src/dispose_bag.ts:57`, so `add` accepts them, and a `Set` visits entries added during iteration, so the source would run them in the same pass and then clear them.
- Event emitters in `fromEvent` are opaque identities. Subscribing and unsubscribing are recorded as effects, not performed.
- Integer conversions (`| 0`, `>>`, `&`) follow the int32 conversion of the language, with real numbers truncated toward zero.
