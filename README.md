# Eclipse Studio: the decision logic behind the landing page

Eclipse Studio's site shows a WebGL black hole (`blackhole.js`) and a hero
section animated by `script.js`. Around the GPU shading and the DOM calls sits
a thin layer of rules that this project models in Dafny and proves things
about:

- **Black-hole scene** (`blackhole_scene.dfy`, `render_tier.dfy`): the device
  tier (frame-rate cap, overscan, pixel-ratio cap, tessellation), the
  container-driven resize, the two gating flags, the frame-rate limiter and
  the order of the per-frame uniform updates before the single
  `composer.render()`. The scene is a class; every render appends the uniform
  values it drew with to a log, so "no frame while gated", "frames at least
  one interval apart" and "all updates before the render" are statements
  about that log.
- **Shader arithmetic** (`numeric.dfy`, `disk_shading.dfy`, `lensing.dfy`):
  GLSL `clamp`, `mix` and `smoothstep` over the reals; the accretion disk's
  radial easing, colour gradient, brightness and tapered alpha; the lensing
  pass's distortion magnitude, channel sample positions and
  luminance-to-alpha. Noise values, distances and sampled colours are inputs.
- **Starfield** (`starfield.dfy`): the star-count policy, sizing the canvas to
  the hero, the same gate as the scene plus a capped time step, and the
  in-place pass over the `stars` array that moves, respawns and wraps stars.
- **UI rules** (`parallax.dfy`, `portfolio_filter.dfy`, `mobile_nav.dfy`,
  `i18n.dfy`): the clamped, eased parallax with at most one pending frame; the
  exclusive filter tab and the card visibility rule; the mobile menu's
  open/hide attributes; language resolution, dictionary fallback, the
  missing-key skip and the two-state toggle.

Shared pieces: `wrappers.dfy` (an `Option` for absent attributes and stored
values) and `viewport.dfy` (the floor-at-one size, the `dpr || 1` capped pixel
ratio and the intersection-observer reading used by both animations).

Two consequences of the code are worth stating up front:

- Reduced motion lowers only the frame rate; overscan, the pixel-ratio cap
  and the tessellation follow `isMobile` alone
  (`RenderTier.DetailIgnoresReducedMotion`, `RenderTier.ReducedMotionDesktop`).
- The lensing aspect is the floored buffer's `rw/rh`, not the container's
  `w/h`: a 5×3 desktop container gives a 6×3 buffer, so the lensing aspect is
  2 against a camera aspect of 5/3 (`BlackHole.DesktopAspectsCanDiffer`).

## Model

| member | source | states |
|---|---|---|
| RenderTier.SelectProfile | blackhole.js:13-23 | 30 fps exactly when mobile or reduced motion, else 60; overscan 1.0, pixel-ratio cap 1.0 and the low tessellation exactly when mobile |
| RenderTier.IsMobileWidth | blackhole.js:13 | the `max-width: 980px` query matches at 980 px and below and not above |
| RenderTier.Overscan | blackhole.js:22 | overscan lies in [1, 1.2] |
| RenderTier.DprCap | blackhole.js:23 | the pixel-ratio cap lies in [1, 1.5] |
| RenderTier.FrameInterval | blackhole.js:18 | the interval times the frame rate is 1000 ms |
| RenderTier.DetailIgnoresReducedMotion | blackhole.js:22-23 | overscan, pixel-ratio cap and both tessellations are the same whatever the reduced-motion flag |
| RenderTier.ReducedMotionDesktop | blackhole.js:138-142 | a reduced-motion desktop runs at 30 fps with overscan 1.2, cap 1.5, spheres 96×48 and disk 192×96 |
| RenderTier.BoundaryWidthIsMobile | blackhole.js:13 | the `max-width: 980px` query includes 980 itself, which selects the low tier |
| RenderTier.FrameIntervals | blackhole.js:17-18 | the interval is 1000/30 ms on the capped tier and 1000/60 ms otherwise, between 16 and 34 ms |
| Numeric.Min | script.js:99 | `Math.min`: the result is at most both arguments and is one of them |
| Numeric.Max | script.js:162 | `Math.max`: the result is at least both arguments and is one of them |
| Viewport.AtLeastOne | blackhole.js:386-387 | the size is at least 1 and at least the measured size, and equals it when it is positive |
| Viewport.CappedPixelRatio | blackhole.js:395 | the ratio never exceeds the cap and is either the cap or the device ratio, 1 when the device reports 0 |
| Viewport.IntersectionVisible | blackhole.js:422 | visible iff there is no entry or the first entry intersects |
| BlackHole.ResizeSizing | blackhole.js:385-405 | camera aspect is w/h; each buffer side is the floor of the side times overscan and no smaller than it; lensing aspect is the buffer's rw/rh; pixel ratio is the capped device ratio |
| BlackHole.BufferSize | blackhole.js:392-393 | the buffer side is the floor of side × overscan, at least the side, and the side itself at overscan 1 |
| BlackHole.Aspect | blackhole.js:389 | the aspect times the height is the width, positive for a positive width |
| BlackHole.MobileAspectsAgree | blackhole.js:392-401 | without overscan the buffer is the container and the lensing aspect equals the camera aspect |
| BlackHole.DesktopAspectsCanDiffer | blackhole.js:389-401 | a 5×3 desktop container gives a 6×3 buffer whose aspect 2 differs from the camera's |
| BlackHole.Renders | blackhole.js:435-439 | a render happens only on a frame callback at least one interval after the last frame, never while a flag is down, and always when ungated and due |
| BlackHole.Step | blackhole.js:413-439 | visibility and intersection events set their flag; a frame callback renders iff ungated and at least one interval after the last frame, and only then moves the limiter's clock to its time |
| BlackHole.Run | blackhole.js:432-439 | over a run of events at most one frame per event is rendered, and none without a frame callback |
| BlackHole.RunSpaced | blackhole.js:435-439 | over any event sequence the rendered frame times are each at least one interval after the previous one, the first one after the starting clock |
| BlackHole.GatedRunRendersNothing | blackhole.js:433-435 | while the tab is hidden or the mount is off-screen, any number of frame callbacks render nothing |
| BlackHole.RunOne | blackhole.js:432-439 | a single callback renders exactly when the gate and the limiter admit it |
| BlackHole.TenMillisecondsApartRenderOnce | blackhole.js:17-18 | at 30 fps two callbacks 10 ms apart render at most once |
| BlackHole.LensCenter | blackhole.js:451-455 | maps projected coordinates in [-1, 1] into [0, 1] and is inverted by `2c - 1`; the origin maps to the centre (0.5, 0.5) |
| BlackHole.LogAppend | blackhole.js:438-457 | appending an admitted frame drawn with one time for disk and glow and the camera position in both camera uniforms keeps the render log valid |
| BlackHole.Scene.constructor | blackhole.js:408-414 | the tier is fixed, the clock starts at 0, both flags are up, the first resize has run and nothing has been rendered |
| BlackHole.Scene.ResizeToMount | blackhole.js:385-406 | the sizes become those of `ResizeSizing`; the loop state, uniforms and render log are untouched |
| BlackHole.Scene.OnVisibilityChange | blackhole.js:416-418 | the loop state moves as `Step` says for the visibility event |
| BlackHole.Scene.OnIntersection | blackhole.js:420-425 | the loop state moves as `Step` says for the intersection report |
| BlackHole.Scene.Animate | blackhole.js:432-458 | rendered iff `Step` admits the callback; otherwise nothing changes; when admitted, both times are the elapsed time, both cameras the camera position, the lens centre the projected core, and exactly one frame carrying those values is appended to the log after them, so the log's times stay spaced by the interval |
| BlackHole.Scene.PushUniforms | blackhole.js:439-455 | the clock takes the callback time and the uniforms take the elapsed time, camera position and lens centre |
| BlackHole.Scene.Render | blackhole.js:457 | one frame carrying the current uniform values is appended to the log |
| Numeric.Clamp | blackhole.js:107 | the result lies in [lo, hi], equals x inside and saturates outside |
| Numeric.Mix | blackhole.js:353-356 | t = 0 gives a, t = 1 gives b, and t in [0, 1] stays between a and b |
| Numeric.Smoothstep | blackhole.js:108 | the result lies in [0, 1]; 0 on the near side of the first edge and 1 beyond the second, for both edge orders |
| Numeric.HermiteInUnit | blackhole.js:335-337 | the Hermite ease maps [0, 1] into [0, 1] |
| Numeric.MixVec | blackhole.js:352-356 | componentwise mix: t = 0 gives a, t = 1 gives b, and the unit cube is preserved |
| DiskShading.NormalizedRadius | blackhole.js:335-337 | the eased radius lies in [0, 1], 0 at and inside the inner edge 1.5, 1 at and beyond the outer edge 8 |
| DiskShading.NoiseValue | blackhole.js:349-350 | octaves in [-1, 1] combine to a value in [0, 1] |
| DiskShading.Gradient | blackhole.js:352-356 | the colour is the outer stop at radius 0 and the hot stop from 0.95, and stays in the unit cube |
| DiskShading.BaseBrightness | blackhole.js:359 | the base brightness is in [0.5, 4]: 4 at the inner edge, 0.5 at the outer |
| DiskShading.BaseBrightnessDecreasing | blackhole.js:359 | the base brightness falls strictly outwards |
| DiskShading.Brightness | blackhole.js:359-363 | with noise in [0, 1] and a sine in [-1, 1] the brightness stays in [0.105, 10] |
| DiskShading.Alpha | blackhole.js:365-368 | alpha lies in [0, 1] and is 0 at either end of the ring whatever the noise |
| DiskShading.Taper | blackhole.js:366-367 | a zero fade factor zeroes the opacity; two full factors keep it |
| DiskShading.AlphaPlateau | blackhole.js:365-368 | between the tapers alpha is at least 0.26, and 1 once the noise reaches 0.9 |
| DiskShading.DiskFragment | blackhole.js:335-370 | the fragment's alpha is in [0, 1] and 0 outside the ring |
| DiskShading.DiskEdgesFade | blackhole.js:335-368 | at both radii the fragment is transparent and the gradient is the outer or the hot stop |
| Lensing.ToCenter | blackhole.js:102-103 | the vector is the fragment minus the centre, x scaled by the aspect ratio |
| Lensing.Distortion | blackhole.js:106-109 | the distortion lies in [0, 0.7] and is 0 from the radius outwards |
| Lensing.DistortionSaturatesAtCenter | blackhole.js:106-109 | within 0.09 of the centre the distortion is at its ceiling 0.7 |
| Lensing.NoDistortionOutsideRadius | blackhole.js:108-109 | with the pass's radius 0.3 the frame is undistorted from 0.3 outwards |
| Lensing.SampleUvs | blackhole.js:114-116 | green samples at the offset position, red and blue symmetric around it, all equal without aberration |
| Lensing.Luminance | blackhole.js:125 | luminance of a unit-cube colour is in [0, 1] and a grey's luminance is its level |
| Lensing.OutputAlpha | blackhole.js:125-126 | alpha lies in [0, 1]: 0 at luminance up to 0.04, 1 from 0.14 |
| Lensing.BackgroundIsTransparent | blackhole.js:124-126 | black becomes fully transparent and white fully opaque |
| Starfield.StarCount | script.js:23-28 | the count is one of 65, 85, 100, 120; at most 85 iff narrower than 900 px; 65 or 100 iff the area exceeds 2.2 million px |
| Starfield.Uniform | script.js:31-38 | a draw in [0, 1) spread over a span lands in [lo, lo + span) |
| Starfield.MakeStar | script.js:30-40 | a new star lies across the canvas, at y = -20 unless scattered, with radius in [0.35, 1.45), alpha in [0.16, 0.34), speed in [14, 46), drift in [-5, 5) and seed in [0, 1000) |
| Starfield.FrameDt | script.js:99 | the step is at most 33 ms, the elapsed time itself below that, never negative for a later callback |
| Starfield.Move | script.js:107-108 | only x and y change, and a falling star never moves up |
| Starfield.Wrap | script.js:111-112 | x ends in [-40, W + 40], only x changes, and a star already there is left alone |
| Starfield.FallenOut | script.js:110 | a star counts as fallen out only once it is more than 30 px down, so one at the top is never replaced |
| Starfield.StepStar | script.js:104-112 | a star that fell more than 30 px below the canvas is replaced by a new one at y = -20; any other keeps its fall and ends with x in [-40, W + 40] |
| Starfield.TwinkleAlpha | script.js:114-115 | the fill alpha is at most 0.9 and positive for a visible star |
| Starfield.DotFor | script.js:107-120 | the dot is drawn where the star loop's original object ended, wrapped, with alpha at most 0.9 |
| Starfield.StarLayout | script.js:42-66 | hero size floored to at least 1, ratio capped at 1.25, scale 0.75 below 900 px else 0.82, the star count for the box, and a backing store that is the floor of size × ratio × scale |
| Starfield.CanvasSize | script.js:57-58 | the backing side is the floor of size × ratio × scale |
| Starfield.StarCanvas.constructor | script.js:14-21 | the initial globals: empty canvas, ratio 1, scale 0.8, 120 stars planned, both flags up |
| Starfield.StarCanvas.ResizeStars | script.js:42-69 | nothing without a hero; otherwise the layout of `StarLayout` and a fresh array of `STAR_COUNT` stars scattered over the new canvas |
| Starfield.StarCanvas.DrawStars | script.js:93-122 | a gated callback changes nothing and draws nothing; otherwise the clock moves to now and each array slot becomes `StepStar` of its old star while the dot drawn comes from the old object, the array keeping its length |
| Starfield.StarCanvas.OnVisibilityChange | script.js:78-80 | running iff the document is shown |
| Starfield.StarCanvas.OnIntersection | script.js:82-90 | the observer exists only with a hero; the hero flag follows the first entry, true without one |
| Parallax.Target | script.js:162-163 | the target is the offset clamped to [-0.6, 0.6] |
| Parallax.Ease | script.js:169-170 | one frame shrinks the gap to the target by 8% and lands between the offset and the target |
| Parallax.EaseN | script.js:167-170 | over any number of frames toward a fixed target the offset stays between its start and the target |
| Parallax.EaseNGap | script.js:167-170 | after n frames the gap is 0.92^n of the starting gap |
| Parallax.EaseNStaysInReach | script.js:162-170 | an offset starting in [-0.6, 0.6] stays there whatever the number of frames |
| Parallax.Pointer.constructor | script.js:154-155 | targets and offsets start at 0 with no frame pending |
| Parallax.Pointer.Move | script.js:157-184 | called only when the fine-pointer listener is installed; without the visual nothing changes; otherwise clamped targets and a frame requested only when none is pending, so at most one is |
| Parallax.Pointer.Tick | script.js:167-170 | the pending frame is consumed and each offset eases toward its target, staying in [-0.6, 0.6] |
| PortfolioFilter.Shows | script.js:216 | the "all" filter shows every card; any other filter shows a card iff its category equals the filter |
| PortfolioFilter.MarkButton | script.js:204-207 | a button's active class and `aria-selected` agree with whether it was clicked; its filter is kept |
| PortfolioFilter.Activated | script.js:203-208 | every button is marked with whether it is the clicked one |
| PortfolioFilter.ShowCard | script.js:214-217 | a card is shown ("") iff the filter is "all" or its category, hidden ("none") otherwise |
| PortfolioFilter.Filtered | script.js:213-218 | every card gets the visibility of `ShowCard` |
| PortfolioFilter.ExactlyOneActive | script.js:203-208 | after a click exactly one button is active and exactly one selected, the clicked one; all others read "false" |
| PortfolioFilter.AllShowsEverything | script.js:216 | the "all" filter shows every card |
| PortfolioFilter.ShownIffSameCategory | script.js:216 | for any other filter a card is shown iff its category equals the filter |
| PortfolioFilter.LastFilterWins | script.js:210-218 | filtering twice equals filtering once with the second filter |
| PortfolioFilter.FilterBar.constructor | script.js:200-201 | the bar holds the page's filter buttons and project cards in document order |
| PortfolioFilter.FilterBar.SetActive | script.js:203-208 | the buttons become `Activated` for the clicked position |
| PortfolioFilter.FilterBar.Click | script.js:210-219 | the buttons become `Activated` and the cards `Filtered` by the clicked button's filter |
| MobileNav.ViewFor | script.js:229-240 | an open menu is displayed as block, not hidden and expanded; a hidden one the opposite, always consistent |
| MobileNav.ConsistentViews | script.js:229-240 | a consistent view is the view of exactly one menu state |
| MobileNav.Menu.constructor | script.js:225-227 | the menu records whether the overlay and the menu button exist, and starts from the markup's attributes |
| MobileNav.Menu.Open | script.js:229-234 | the open view when overlay and button exist, no change otherwise |
| MobileNav.Menu.Hide | script.js:235-240 | the hidden view when overlay and button exist, no change otherwise |
| MobileNav.Menu.OnOverlayClick | script.js:243-246 | only a click on the backdrop itself hides the menu |
| I18n.DictionaryFor | script.js:710 | French gets its dictionary; any other language, known or not, gets English |
| I18n.Translate | script.js:717-724 | an element whose key the dictionary has takes its text; any other element is unchanged |
| I18n.Translated | script.js:717-724 | applying a dictionary keeps the number of elements and each element's key |
| I18n.TranslatedPointwise | script.js:717-724 | applying a dictionary keeps the page's elements and translates each on its own |
| I18n.TranslatedIdempotent | script.js:709-727 | applying a language twice is applying it once |
| I18n.LastLanguageWins | script.js:709-727 | when the second dictionary covers every key, the first application leaves no trace |
| I18n.WhisperStaysEnglish | script.js:513-518 | the whisper line, absent from French, keeps its English text after switching to French |
| I18n.Lower | script.js:734 | capital ASCII letters move to lower case, every other character is kept |
| I18n.BrowserLanguage | script.js:734 | French iff the browser language starts with "fr" in any letter case, else English |
| I18n.StartLanguage | script.js:733-735 | a saved non-empty choice wins, otherwise the browser language |
| I18n.ToggleTarget | script.js:740-741 | the toggle gives English iff the page is French, French otherwise |
| I18n.ToggleTwice | script.js:739-742 | two toggles return to English or French, and end on English from any other language |
| I18n.Page.constructor | script.js:753 | before `initLanguageToggle` runs the page has its markup's language, toggle `data-active`, elements and storage and no toggle handlers |
| I18n.Page.ApplyLanguage | script.js:709-727 | page language and stored "lang" become the argument even when it has no dictionary; the toggle's `data-active` follows when present; the elements are `Translated` by its dictionary |
| I18n.Page.TranslateElements | script.js:717-724 | the elements become `Translated` by the dictionary |
| I18n.Page.Init | script.js:729-737 | nothing without a toggle; otherwise the start language is applied and the handlers installed |
| I18n.Page.OnToggleClick | script.js:739-742 | the page moves to `ToggleTarget` of its language: stored, shown on the toggle's `data-active` and translated; nothing before the handler is installed |
| I18n.Page.OnToggleKey | script.js:744-749 | Enter and Space have the whole effect of a click (language, storage, `data-active`, elements); other keys change nothing |

## Left out

- Simplex noise, `sin`/`cos` pulses, `pow` fresnel, `length`, `normalize` and texture reads in the shaders: the combined noise value, the sine of a phase, the distance to the lensing centre and the sampled colour are inputs. `normalize(toCenter)` at distance 0 is undefined in GLSL and not modelled.
- The core and glow shells' own shading and the disk's spiral texture coordinates: GPU numerics only.
- Lensing.Distortion: the falloff `smoothstep(0.3, 0.09, dist)` has reversed edges, which the OpenGL ES Shading Language 3.00 specification (section 8.3) leaves undefined; the model assumes the Hermite formula as written.
- The three.js renderer, composer, bloom pass, camera projection and clock: the projected core position and the elapsed time are inputs of `BlackHole.Scene.Animate`; the render is an entry in the scene's log. The always-enabled bloom branch is configuration only.
- Browser plumbing (`matchMedia`, ResizeObserver, IntersectionObserver, `visibilitychange`, `requestAnimationFrame`, `localStorage`, `navigator.language`): their readings are parameters and their callbacks are methods. Rescheduling at the top of each frame callback is implied, not modelled.
- `Math.random()`: each value is a parameter required to lie in [0, 1). The sines behind the twinkle and the disk pulsation are unconstrained inputs; `Starfield.TwinkleAlpha`'s positivity and `DiskShading.Brightness`'s bounds assume they lie in [-1, 1].
- Canvas drawing (`clearRect`, `arc`, `fillStyle` strings) is represented by the dots a frame draws; the CSS transform and filter strings written from the parallax offsets are not modelled.
- Starfield.StarCanvas.ResizeStars: requires a non-negative device pixel ratio, as browsers report; a negative one would give the canvas a negative size.
- Parallax.Pointer.Move: the pointer offset divided by the visual's size is an input, because a zero-sized visual makes the division produce NaN or Infinity, which reals cannot express.
- The specks around the sculpture, the reveal observer and the footer year: DOM side effects with no rule worth stating.
- The bulk of the two dictionaries: a few representative keys of each, including the English-only `hero.whisper`.
- I18n.BrowserLanguage: lower-casing is ASCII only; no other character lower-cases to `f` or `r`, so the "starts with fr" test is unaffected.
- I18n.DictionaryFor: keys inherited from JavaScript's object prototype (such as `constructor`) are not modelled; they would make `I18N[lang]` or `dict[key]` a non-dictionary value.
- `preventDefault` in the key handler, and the mobile menu's close button and links, which call `MobileNav.Menu.Hide` directly.
- JavaScript doubles are reals: `Math.floor(w * 1.2)`, `1000 / FPS` and the easing are exact here, rounded in the browser.
- The commented-out teardown code of the scene is not live and not modelled.
