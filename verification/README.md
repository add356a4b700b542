# Motion and interaction layer of the landing page, in Dafny

This project models the client-side motion layer of a Next.js marketing site:
the device-capability profile and the gate that decides whether the
decorative 3D scene mounts; the landing page's own interaction state (header
hide/show on scroll, the FAQ accordion, section jumps, hero parallax and
call-to-action magnet targets); the animated metric counter; word and letter
reveals; the fade-up and stagger wrappers; the pointer-driven tilt card,
magnetic button, 3D card and cursor glow; the reveal schedules of the
pricing and timeline cards; and three decorative canvases and SVGs (drifting
dots, schematic step markers, floating particles).

Each source file is one module. Code that only computes values (schedules,
variant records, the capability classifier, text splitting, marker and
particle formulas) is written as functions with lemmas. Handlers that update
component state in place are methods of a class whose fields are that state
(`LandingPage.Page`, `TiltCard.TiltCard`, `MagneticButton.MagneticButton`,
`Card3D.Card3D`, `CursorGlow.CursorGlow`, `AnimatedMetricsCard.CounterCard`,
`FeatureComparisonCard.FeatureCard`, `DeviceCapabilities.CapabilityMonitor`,
`DotsPattern.DotsCanvas`). The dots canvas keeps its dots in an `array` and
updates them in place, as the source does. Every method is specified by the
pure function describing its target, and the properties are proved about that
function.

Inputs that come from the browser are parameters: window width, scroll
position, bounding rectangles, pointer coordinates, clock readings,
intersection events, the reduced-motion flag, the WebGL probe result,
`Math.random` readings (a sequence of values in [0, 1)) and `Math.sin` (a
function parameter). Numbers are `real`s. `Math.round` is `(x + 0.5).Floor`.
`Math.sqrt(d) < 200` is compared as `d < 200 * 200`.

A few behaviours of the code are worth stating outright. Every capability
check rebuilds the whole profile and probes WebGL again, so a failed probe is
not remembered for the session. The check runs on every resize with no
debouncing. The tilt card's handler updates its targets whatever the motion
preference. The metric counter's effect runs again when the metric or the
motion preference changes; its cleanup only disconnects the observer, so an
animation loop already started keeps running beside any loop the new observer
starts, and in each frame the most recently started loop's value is the one
left on screen.

## Model

| member | source | states |
|---|---|---|
| Geometry.Clamp | components/effects/DotsPattern.tsx:67-68 | `Math.max(lo, Math.min(hi, x))` lies in [lo, hi], is x inside, and is the nearer bound outside |
| Geometry.Fraction | components/ui/Card3D.tsx:32-33 | a pointer's position as a fraction of a box side lies in [0, 1] inside the box, is 0 at the start, 1 at the end and 0.5 at the centre |
| Geometry.CentredOffset | app/page.tsx:87-88 | `(fraction - 0.5) * scale` lies within ±abs(scale)/2 inside the box, is 0 at the centre, -scale/2 at the start and scale/2 at the end |
| Geometry.Interpolate | components/ui/MagneticButton.tsx:30-31 | the declared clamped two-point mapping hits both endpoints, holds them outside the input range and stays between the outputs |
| Motion.StaggerOrdered | components/animations/motion-primitives.tsx:68 | with a positive stagger interval children start in index order, exactly one interval apart |
| DeviceCapabilities.Classify | hooks/use-device-capabilities.ts:25-51 | a check yields exactly one device class, a GPU flag equal to desktop-and-WebGL, and passes the reduced-motion and WebGL readings through |
| DeviceCapabilities.Breakpoints | hooks/use-device-capabilities.ts:28-30 | width < 768 is mobile, 768 ≤ width < 1024 tablet, width ≥ 1024 desktop; hasGoodGPU iff desktop and WebGL |
| DeviceCapabilities.DefaultIsDesktop | hooks/use-device-capabilities.ts:15-22 | the initial profile is a one-class desktop profile with WebGL, no reduced motion, and passes the 3D gate |
| DeviceCapabilities.Render3DCharacterised | hooks/use-device-capabilities.ts:64-70 | on a one-class profile the 3D gate holds iff WebGL, no reduced motion and not mobile |
| DeviceCapabilities.MobileNeverRenders3D | hooks/use-device-capabilities.ts:64-74 | a mobile width fails both the 3D gate and the heavy-animation gate, whatever WebGL and motion say |
| DeviceCapabilities.Render3DImpliesHeavy | hooks/use-device-capabilities.ts:64-74 | on a one-class profile, rendering 3D implies heavy animations are on |
| DeviceCapabilities.CapabilityMonitor.constructor | hooks/use-device-capabilities.ts:15-22 | the hook starts at the default profile, which is valid |
| DeviceCapabilities.CapabilityMonitor.Check | hooks/use-device-capabilities.ts:25-51 | a check replaces the whole record with the classifier's result for the new readings, keeping the one-class and GPU invariants |
| Adaptive3D.Adaptive3D | components/effects/Adaptive3D.tsx:13-19 | the children are shown iff the 3D gate holds, the fallback otherwise |
| Adaptive3D.DefaultFallbackRendersNothing | components/effects/Adaptive3D.tsx:11-19 | with the default fallback something is rendered iff the 3D gate holds |
| Adaptive3D.MobileGetsFallback | components/effects/Adaptive3D.tsx:13-17 | a mobile-width profile always gets the fallback |
| LandingPage.NextNavHidden | app/page.tsx:49-59 | below 120 the header shows; at or above 120 it hides on a downward step over 5 px, keeps its state on a smaller downward step, and shows on a non-downward step |
| LandingPage.ToggleFaq | app/page.tsx:1163 | clicking question i opens it iff it was not the open one; otherwise no answer is open |
| LandingPage.AtMostOneAnswer | app/page.tsx:1175 | two shown answers are the same answer |
| LandingPage.ToggleTwice | app/page.tsx:1163 | clicking the same question twice restores it if it was open and closes everything otherwise |
| LandingPage.ScrollTarget | app/page.tsx:71-73 | the scroll target is 80 px above the element's document position |
| LandingPage.Landed | app/page.tsx:74-77 | the browser ends the scroll at the target clamped to [0, maxScroll], exactly at the target when it is reachable |
| LandingPage.SectionLandsBelowHeader | app/page.tsx:71-77 | when the target is reachable the section's top ends exactly 80 px below the viewport top; a section too near the page end stays lower, one too near the top stays at its own document position, above 80 px |
| LandingPage.PointerTarget | app/page.tsx:86-88 | both offsets lie within ±abs(scale)/2 for a pointer inside the box and are 0 at its centre |
| LandingPage.HeroTargetBounds | app/page.tsx:82-91 | the hero parallax target stays in [-40, 40] on both axes |
| LandingPage.CtaTargetBounds | app/page.tsx:98-107 | the call-to-action magnet target stays in [-9, 9] on both axes |
| LandingPage.Page.constructor | app/page.tsx:31-44 | the page starts unscrolled, header shown, menu closed, no FAQ open, pointer targets at rest |
| LandingPage.Page.HandleScroll | app/page.tsx:47-62 | scrolled becomes current > 20, navHidden follows the hide rule, lastScrollY becomes current, and the header invariant is kept |
| LandingPage.Page.ClickFaq | app/page.tsx:1163 | the open question becomes the toggled one |
| LandingPage.Page.ToggleMobileMenu | app/page.tsx:179 | the menu flag flips |
| LandingPage.Page.ScrollToSection | app/page.tsx:68-80 | a found section yields the offset target and closes the menu; an unknown id scrolls nowhere and leaves the menu alone |
| LandingPage.Page.HandleHeroPointerMove | app/page.tsx:82-91 | under reduced motion the target is unchanged; otherwise it becomes the scale-80 pointer target |
| LandingPage.Page.ResetHeroPointer | app/page.tsx:93-96 | the hero target returns to (0, 0) |
| LandingPage.Page.HandleCtaMagnet | app/page.tsx:98-107 | under reduced motion the target is unchanged; otherwise it becomes the scale-18 pointer target |
| LandingPage.Page.ResetCtaMagnet | app/page.tsx:109-112 | the magnet target returns to (0, 0) |
| AnimatedMetricsCard.Digits | components/sections/AnimatedMetricsCard.tsx:38 | removing non-digits leaves only digits and never lengthens the text |
| AnimatedMetricsCard.DigitsOfChar | components/sections/AnimatedMetricsCard.tsx:38 | a single character is kept exactly when it is a digit |
| AnimatedMetricsCard.DigitsAppend | components/sections/AnimatedMetricsCard.tsx:38 | the digits of a concatenation are the digits of each part, in order, so every digit of the text is kept in its place |
| AnimatedMetricsCard.DigitsOfDigitFree | components/sections/AnimatedMetricsCard.tsx:38 | a text with no digit keeps nothing |
| AnimatedMetricsCard.Target | components/sections/AnimatedMetricsCard.tsx:36-38 | a number is its own target; a string's target is a whole number ≥ 0 read from its digits in order, and 0 when it has none |
| AnimatedMetricsCard.DigitFreeSurroundings | components/sections/AnimatedMetricsCard.tsx:36-38 | a decimal number with digit-free text before and after it counts up to that number |
| AnimatedMetricsCard.DigitRun | components/sections/AnimatedMetricsCard.tsx:171 | one `\d+` match: a prefix of digits followed by a non-digit or the end |
| AnimatedMetricsCard.Suffix | components/sections/AnimatedMetricsCard.tsx:171 | removing digit runs leaves no digit |
| AnimatedMetricsCard.SuffixIsNonDigits | components/sections/AnimatedMetricsCard.tsx:38 | removing whole digit runs removes exactly the digits, so digits and suffix together account for every character |
| AnimatedMetricsCard.ParseDecimal | components/sections/AnimatedMetricsCard.tsx:38 | parsing the decimal digits of n gives back n |
| AnimatedMetricsCard.TextTargetOfDecimal | components/sections/AnimatedMetricsCard.tsx:36-38 | a metric written as plain decimal digits counts up to that number |
| AnimatedMetricsCard.DigitsOfDigitString | components/sections/AnimatedMetricsCard.tsx:38 | a string of digits is its own digit extraction |
| AnimatedMetricsCard.ArrowTarget | components/sections/AnimatedMetricsCard.tsx:38 | the metric "15 → 1" counts up to 151 |
| AnimatedMetricsCard.ArrowSuffix | components/sections/AnimatedMetricsCard.tsx:171 | the metric "15 → 1" shows the suffix " → " |
| AnimatedMetricsCard.DisplaySuffix | components/sections/AnimatedMetricsCard.tsx:171 | numbers get no suffix; a string's suffix contains no digit |
| AnimatedMetricsCard.Progress | components/sections/AnimatedMetricsCard.tsx:45-50 | progress never exceeds 1, is non-negative for non-negative elapsed time, and is below 1 exactly before 2000 ms |
| AnimatedMetricsCard.EaseFixedPoints | components/sections/AnimatedMetricsCard.tsx:53-55 | the curve maps 0, 0.5 and 1 to themselves |
| AnimatedMetricsCard.EaseContinuousAtHalf | components/sections/AnimatedMetricsCard.tsx:53-55 | just below 0.5 the in-half is within twice the distance of 0.5, so the pieces meet without a jump |
| AnimatedMetricsCard.EaseInRises | components/sections/AnimatedMetricsCard.tsx:54 | the in-half is non-decreasing on [0, 0.5) |
| AnimatedMetricsCard.EaseOutRises | components/sections/AnimatedMetricsCard.tsx:55 | the out-half is non-decreasing on [0.5, 1] |
| AnimatedMetricsCard.EaseMonotone | components/sections/AnimatedMetricsCard.tsx:53-55 | the curve is non-decreasing on [0, 1] |
| AnimatedMetricsCard.EaseRange | components/sections/AnimatedMetricsCard.tsx:53-55 | the curve maps [0, 1] into [0, 1] |
| AnimatedMetricsCard.Round | components/sections/AnimatedMetricsCard.tsx:57 | the rounded value is within half a unit of x, halves going up |
| AnimatedMetricsCard.DisplayAtEnd | components/sections/AnimatedMetricsCard.tsx:50-57 | from 2000 ms on the counter shows the rounded target, the target itself when integral |
| AnimatedMetricsCard.RoundIntegral | components/sections/AnimatedMetricsCard.tsx:57 | rounding an integer gives it back |
| AnimatedMetricsCard.Animate | components/sections/AnimatedMetricsCard.tsx:48-61 | one `animate` callback shows the eased, rounded value for its elapsed time and schedules another frame exactly while under 2000 ms |
| AnimatedMetricsCard.CounterTrace | components/sections/AnimatedMetricsCard.tsx:48-64 | the frame loop shows at most one value per frame |
| AnimatedMetricsCard.CounterStopsAtEnd | components/sections/AnimatedMetricsCard.tsx:50-61 | the loop stops at the first frame at or past 2000 ms and shows the rounded target there |
| AnimatedMetricsCard.CounterRunsWhileShort | components/sections/AnimatedMetricsCard.tsx:59-61 | while every frame is short of 2000 ms, every frame shows a value |
| AnimatedMetricsCard.ContinuingKeeps | components/sections/AnimatedMetricsCard.tsx:59-61 | after a frame exactly the loops under 2000 ms into their count are still scheduled |
| AnimatedMetricsCard.LoopsDrain | components/sections/AnimatedMetricsCard.tsx:59-61 | once every loop has run 2000 ms, one frame ends them all |
| AnimatedMetricsCard.CounterCard.constructor | components/sections/AnimatedMetricsCard.tsx:28-41 | display starts at 0 with no loop; an observer exists only without reduced motion and with a mounted element, and then the target is the extracted one |
| AnimatedMetricsCard.CounterCard.Rerun | components/sections/AnimatedMetricsCard.tsx:32-73 | a change of metric or motion preference disconnects the old observer and runs the effect again: a fresh observer and target only without reduced motion and with an element; running loops and the shown value are untouched |
| AnimatedMetricsCard.CounterCard.Intersect | components/sections/AnimatedMetricsCard.tsx:42-64 | the observer's first intersection resets the display, starts a loop at the given time with the current target and unobserves, so each effect run starts at most one loop |
| AnimatedMetricsCard.CounterCard.Frame | components/sections/AnimatedMetricsCard.tsx:48-61 | the loops run in the order started; the most recent one's eased, rounded value is left shown, and only the loops under 2000 ms stay scheduled |
| TextReveal.TrimStart | components/effects/TextReveal.tsx:25 | the result is a suffix of the text, everything dropped is whitespace, and it starts with non-whitespace |
| TextReveal.TrimEnd | components/effects/TextReveal.tsx:25 | the result is a prefix of the text, everything dropped is whitespace, and it ends with non-whitespace |
| TextReveal.Trim | components/effects/TextReveal.tsx:25 | a trimmed non-empty text starts and ends with non-whitespace |
| TextReveal.Split | components/effects/TextReveal.tsx:25 | splitting on whitespace runs always yields at least one piece |
| TextReveal.NonEmpty | components/effects/TextReveal.tsx:25 | filtering keeps no empty piece and never adds pieces |
| TextReveal.SplitPiecesHaveNoSpace | components/effects/TextReveal.tsx:25 | no piece of a split contains whitespace |
| TextReveal.JoinSplitIsCollapse | components/effects/TextReveal.tsx:25 | re-joining the pieces with single spaces is the text with each whitespace run collapsed to one space |
| TextReveal.SplitTrimmedHasNoEmptyPiece | components/effects/TextReveal.tsx:25 | a text with no leading or trailing whitespace splits into non-empty pieces only |
| TextReveal.NonEmptyKeepsAll | components/effects/TextReveal.tsx:25 | filtering a list of non-empty pieces changes nothing |
| TextReveal.WordsSpec | components/effects/TextReveal.tsx:25 | words are non-empty and free of whitespace, and joined with single spaces give the trimmed text with runs collapsed, in order |
| TextReveal.WordSpans | components/effects/TextReveal.tsx:31-36 | one span per word, in order; word i starts at delay/1000 + 0.08·i, so delays strictly increase |
| TextReveal.LetterSpans | components/effects/TextReveal.tsx:94-103 | one span per character in order; a space becomes U+00A0 shown inline, any other character is shown verbatim inline-block |
| TextReveal.LetterReveal | components/effects/TextReveal.tsx:55-97 | reduced motion starts visible with no container variants and a plain fade; otherwise starts hidden, staggers by 0.03 s after delay/1000, and lifts letters from y 10 to 0 on a spring of damping 12 and stiffness 200 declared on both letter poses; the reduced fade declares no spring |
| TextReveal.LetterOnsets | components/effects/TextReveal.tsx:55-63 | without reduced motion the first letter starts at delay/1000 and later letters start later |
| TextReveal.ReducedLettersOnlyFade | components/effects/TextReveal.tsx:90-97 | under reduced motion letters animate opacity only; otherwise they move |
| MotionPrimitives.MotionFadeUp | components/animations/motion-primitives.tsx:21-41 | reduced motion gives opacity-only variants, otherwise the base fade-up; delay is delay/1000 (0 by default), a given duration is passed through and defaults to 0.65, viewport is once-by-default with amount 0.6 |
| MotionPrimitives.ReducedFadeUpIsPlainFade | components/animations/motion-primitives.tsx:8-11 | reduced fade-up runs opacity 0 to 1 with no spatial channel, while the full one moves |
| MotionPrimitives.MotionStaggerList | components/animations/motion-primitives.tsx:55-76 | a stagger is declared iff motion is not reduced, with interval 0.12 and delayChildren/1000; viewport is once-by-default with amount 0.4 |
| MotionPrimitives.ListChildrenInOrder | components/animations/motion-primitives.tsx:66-69 | list children are revealed in index order, 0.12 s apart |
| TiltCard.TiltTarget | components/animations/tilt-card.tsx:27-32 | both rotations lie within ±abs(intensity)/2 inside the box, are 0 at the centre, and reach intensity/2 at the right and top edges |
| TiltCard.TiltAxes | components/animations/tilt-card.tsx:29-32 | the horizontal offset drives rotateY and the vertical offset, negated, drives rotateX |
| TiltCard.TiltCard.constructor | components/animations/tilt-card.tsx:15-23 | intensity defaults to 12 and both rotations start at 0 |
| TiltCard.TiltCard.HandleMouseMove | components/animations/tilt-card.tsx:27-33 | the rotations become the tilt target, with no reduced-motion check |
| TiltCard.TiltCard.ResetTilt | components/animations/tilt-card.tsx:35-38 | both rotations return to 0 |
| MagneticButton.MagnetTarget | components/ui/MagneticButton.tsx:36-41 | a pointer at the button's centre gives no pull |
| MagneticButton.MagnetLinear | components/ui/MagneticButton.tsx:40-41 | moving the pointer by (ax, ay) moves the pull by strength times (ax, ay) |
| MagneticButton.MagnetBounded | components/ui/MagneticButton.tsx:36-41 | inside the button the pull is at most abs(strength) times half the button's size |
| MagneticButton.RotateX | components/ui/MagneticButton.tsx:30 | the tilt about x stays in [-10, 10], 10 at pull -100 or less, -10 at 100 or more |
| MagneticButton.RotateY | components/ui/MagneticButton.tsx:31 | the tilt about y stays in [-10, 10], -10 at pull -100 or less, 10 at 100 or more |
| MagneticButton.RestIsLevel | components/ui/MagneticButton.tsx:30-31 | with no pull the button is not tilted |
| MagneticButton.Style | components/ui/MagneticButton.tsx:59-71 | reduced motion declares no transform and no hover or tap scale; otherwise scales 1.05 and 0.95 |
| MagneticButton.MagneticButton.constructor | components/ui/MagneticButton.tsx:14-24 | strength defaults to 0.3 and the pull starts at (0, 0) |
| MagneticButton.MagneticButton.HandleMouseMove | components/ui/MagneticButton.tsx:33-45 | under reduced motion or before mount nothing changes; otherwise the pull becomes the magnet target |
| MagneticButton.MagneticButton.HandleMouseLeave | components/ui/MagneticButton.tsx:47-50 | the pull returns to (0, 0) |
| MagneticButton.MagneticButton.SetReducedMotion | components/ui/MagneticButton.tsx:20 | a new preference from the hook is what later handler calls read; the pull is kept |
| Card3D.PointerPosition | components/ui/Card3D.tsx:31-33 | the stored position lies in [0, 1]² inside the card, 0 and 1 at the edges, (0.5, 0.5) at the centre |
| Card3D.RotateX | components/ui/Card3D.tsx:22 | y 0 maps to intensity, y 1 to -intensity, always within ±abs(intensity) |
| Card3D.RotateY | components/ui/Card3D.tsx:23 | x 0 maps to -intensity, x 1 to intensity, always within ±abs(intensity) |
| Card3D.RestIsLevel | components/ui/Card3D.tsx:18-23 | the rest position (0.5, 0.5) maps to no rotation |
| Card3D.Style | components/ui/Card3D.tsx:48-62 | reduced motion declares no rotation, no hover scale and neither overlay; otherwise rotation, scale 1.02 and the overlays iff shine |
| Card3D.Card3D.constructor | components/ui/Card3D.tsx:14-19 | intensity defaults to 15 and the position starts at (0.5, 0.5) |
| Card3D.Card3D.HandleMouseMove | components/ui/Card3D.tsx:28-37 | under reduced motion or before mount nothing changes; otherwise the position becomes the normalised pointer position |
| Card3D.Card3D.HandleMouseLeave | components/ui/Card3D.tsx:39-42 | the position returns to (0.5, 0.5), where the card is level |
| Card3D.Card3D.SetReducedMotion | components/ui/Card3D.tsx:15 | a new preference from the hook is what later handler calls read; the position is kept |
| CursorGlow.CursorGlow.constructor | components/effects/CursorGlow.tsx:7-38 | the glow starts invisible at (-100, -100), renders nothing, and has listeners only without reduced motion |
| CursorGlow.CursorGlow.OnMouseMove | components/effects/CursorGlow.tsx:21-25 | with its listener registered the target becomes the pointer and the glow shows; otherwise nothing changes |
| CursorGlow.CursorGlow.OnMouseLeave | components/effects/CursorGlow.tsx:27-30 | with its listener registered the glow hides; either way nothing is rendered |
| CursorGlow.CursorGlow.Cleanup | components/effects/CursorGlow.tsx:32-35 | both listeners the effect added are removed |
| CursorGlow.CursorGlow.SetReducedMotion | components/effects/CursorGlow.tsx:18-38 | re-running the effect leaves listeners exactly when motion is not reduced; under reduced motion nothing renders |
| FeatureComparisonCard.SchedulesIncrease | components/sections/FeatureComparisonCard.tsx:60-72 | content, feature and check-mark delays strictly increase with the index; rows are 0.06 s and check marks 0.08 s apart |
| FeatureComparisonCard.ScheduleOrder | components/sections/FeatureComparisonCard.tsx:48-72 | the container comes before the header, the header before the price, and each row before its check mark |
| FeatureComparisonCard.CtaAfterPrice | components/sections/FeatureComparisonCard.tsx:283 | the call to action, block number features.length, comes after the price block iff there are at least two features |
| FeatureComparisonCard.PriceDisplay | components/sections/FeatureComparisonCard.tsx:209-224 | a price block exists iff a price is given; a string is shown verbatim; a number is shown as "R$ " followed by exactly its pt-BR formatting |
| FeatureComparisonCard.CardDecorations | components/sections/FeatureComparisonCard.tsx:142-163 | reduced motion turns every decorative animation and CTA gesture off; otherwise the CTA scales 1.02 on hover and 0.98 on tap |
| FeatureComparisonCard.FeatureCard.constructor | components/sections/FeatureComparisonCard.tsx:39 | no row is highlighted at first |
| FeatureComparisonCard.FeatureCard.HoverStart | components/sections/FeatureComparisonCard.tsx:244 | without reduced motion the hovered row becomes the highlighted one; under reduced motion nothing changes |
| FeatureComparisonCard.FeatureCard.HoverEnd | components/sections/FeatureComparisonCard.tsx:245 | hover end clears the highlight |
| FeatureComparisonCard.FeatureCard.SetReducedMotion | components/sections/FeatureComparisonCard.tsx:38 | a new preference from the hook is what later hover starts read; the highlight is kept |
| FeatureComparisonCard.FeatureCard.OneHighlight | components/sections/FeatureComparisonCard.tsx:248 | at most one row is highlighted |
| FlowingStepCard.OnsetsOrdered | components/sections/FlowingStepCard.tsx:35-195 | container, dot, icon, content, badge, title and description start in that order for any delay |
| FlowingStepCard.ContainerFirst | components/sections/FlowingStepCard.tsx:35 | the container starts at delay/1000 |
| FlowingStepCard.ContainerRises | components/sections/FlowingStepCard.tsx:28-33 | the container fades from 0 to 1, rises from 40 px to 0 and grows from 0.92 to 1, without the content card's sideways slide |
| FlowingStepCard.ContentVariants | components/sections/FlowingStepCard.tsx:62-65 | content slides from x -30 on alternate cards and +30 otherwise, ending at 0 while fading in |
| FlowingStepCard.AlternateMirrors | components/sections/FlowingStepCard.tsx:62 | alternate and regular cards slide in from mirrored sides |
| FlowingStepCard.WithDefaults | components/sections/FlowingStepCard.tsx:22-23 | isAlternate defaults to false and delay to 0; given props are kept |
| FlowingStepCard.CardDecorations | components/sections/FlowingStepCard.tsx:102-149 | reduced motion turns off the dot pulse, the icon hover and the flowing light; otherwise all three run |
| DotsPattern.StepAxis | components/effects/DotsPattern.tsx:59-68 | the coordinate ends in [0, bound]; the velocity is negated iff the moved coordinate left [0, bound] (or it was 0), so its magnitude is kept |
| DotsPattern.StepDot | components/effects/DotsPattern.tsx:59-68 | a moved dot lies on the canvas and keeps its speed on both axes |
| DotsPattern.AfterFrame | components/effects/DotsPattern.tsx:56-70 | an animated frame leaves every dot on the canvas with its speeds kept; a still frame changes nothing |
| DotsPattern.NoBounceInside | components/effects/DotsPattern.tsx:59-64 | a dot that stays inside moves by its velocity and keeps it |
| DotsPattern.UpdateDots | components/effects/DotsPattern.tsx:58-69 | the in-place update leaves the array equal to the animated frame of its old contents |
| DotsPattern.LinksFrom | components/effects/DotsPattern.tsx:80-96 | the inner loop lists (i, j) for exactly the near dots j after i, in order, leaving other rows' lines as they were |
| DotsPattern.ConnectingLines | components/effects/DotsPattern.tsx:76-97 | each unordered pair i < j is joined iff the dots are within 200 px, every line joins near dots, and lines come in loop order so none repeats |
| DotsPattern.LineOpacity | components/effects/DotsPattern.tsx:89 | for a distance in [0, 200) and a positive base opacity the line opacity lies in (0, opacity]; at distance 0 it is the full opacity |
| DotsPattern.LineFades | components/effects/DotsPattern.tsx:89 | a longer line is no more opaque than a shorter one |
| DotsPattern.InitialVelocity | components/effects/DotsPattern.tsx:47-48 | a velocity component from a reading in [0, 1) lies in [-0.25, 0.25) |
| DotsPattern.NewDot | components/effects/DotsPattern.tsx:44-49 | a new dot lies on the canvas with both velocity components in [-0.25, 0.25) |
| DotsPattern.DotsCanvas.constructor | components/effects/DotsPattern.tsx:38-50 | exactly dotCount dots are created from the readings in call order, all on the canvas |
| DotsPattern.DotsCanvas.Resize | components/effects/DotsPattern.tsx:113-116 | the canvas takes the new window size |
| DotsPattern.DotsCanvas.Frame | components/effects/DotsPattern.tsx:52-97 | the dots become the frame's update (all on the canvas if animated) and the returned lines join exactly the near pairs, each line (i, j) with i < j on the canvas's dots, in the loops' order and so never repeated |
| SchematicLines.MarkerCount | components/effects/SchematicLines.tsx:77 | there are stepCount markers, none for a negative count |
| SchematicLines.Spacing | components/effects/SchematicLines.tsx:78 | the gap is positive and stepCount - 1 gaps span the 90 % track |
| SchematicLines.Marker | components/effects/SchematicLines.tsx:78 | a marker position is NaN exactly when stepCount is 1 |
| SchematicLines.Markers | components/effects/SchematicLines.tsx:77-78 | one marker per step, marker i at the formula's position |
| SchematicLines.MarkersSpanTrack | components/effects/SchematicLines.tsx:78 | with two or more steps the first marker is at 5 % and the last at 95 % |
| SchematicLines.MarkersEvenlySpaced | components/effects/SchematicLines.tsx:78 | consecutive markers are 90/(stepCount - 1) apart |
| SchematicLines.MarkersOnTrack | components/effects/SchematicLines.tsx:78 | every marker lies between 5 % and 95 % |
| SchematicLines.SingleStepIsNaN | components/effects/SchematicLines.tsx:78 | a single step yields one marker at NaN % |
| SchematicLines.DefaultMarkers | components/effects/SchematicLines.tsx:16 | the default five markers sit at 5, 27.5, 50, 72.5 and 95 % |
| ParticleField.Frac | components/effects/ParticleField.tsx:20 | `v - floor(v)` lies in [0, 1) and differs from v by an integer |
| ParticleField.SeededRandom | components/effects/ParticleField.tsx:18-21 | the seeded value lies in [0, 1) |
| ParticleField.MakeParticle | components/effects/ParticleField.tsx:28-40 | particle i has id i, x and y in [0, 100), size in [1, 4), duration in [15, 25), delay in [0, 5), opacity in [0.1, 0.5) and movementX in [-20, 20) |
| ParticleField.Particles | components/effects/ParticleField.tsx:26-42 | exactly count particles (none for a negative count), with id equal to the index |
| ParticleField.ParticlesArePrefixes | components/effects/ParticleField.tsx:27-29 | particles depend only on their index, so a smaller field is a prefix of a larger one and equal counts give equal fields |
| ParticleField.ShiftedSeeds | components/effects/ParticleField.tsx:28-29 | neighbouring particles reuse seeds shifted by one: particle i+1's x is particle i's y |
| ParticleField.ParticleAnimate | components/effects/ParticleField.tsx:61-70 | reduced motion gives an empty target; otherwise a three-keyframe loop that returns to its start, rising 100 px and drifting by movementX |
| ParticleField.FaintestStaysVisible | components/effects/ParticleField.tsx:67 | at its faintest a particle keeps 30 % of its opacity, at least 0.03 |

## Left out

- Springs, scroll progress, `whileInView` triggering and variant propagation are framer-motion library code; the model states the records the components hand to it and the documented meaning of a stagger, not the library's execution.
- Browser I/O is parameters: rectangles, scroll position, `window.scrollTo` (returned as a target), `matchMedia`, the WebGL probe, `IntersectionObserver`, `requestAnimationFrame` (the caller invokes `Frame`), canvas drawing (the lines are returned) and listener registration (a set of listeners where it matters).
- The DotsPattern animation loop is never cancelled when the effect is cleaned up; the model has no notion of cancellation, so this is recorded but not proved.
- DotsPattern's resize-listener removal and the intersection observer's `disconnect` on unmount are not modelled; the counter card's `disconnect` on an effect re-run is (`CounterCard.Rerun`).
- LandingPage.Landed: only where a smooth scroll ends is modelled, not the positions it passes through; the scrollable range `maxScroll` is an input.
- TextReveal.LetterSpans: splits the text into Unicode scalar values, while `text.split('')` splits UTF-16 code units, so a character outside the Basic Multilingual Plane (an emoji) gives two spans of lone surrogates in the source and one span here.
- Floating point: numbers are exact reals. `toFixed(6)` in ParticleField and `toLocaleString('pt-BR')` for prices are not modelled (the latter is a function parameter). Infinity is not modelled either, except as the NaN marker of SchematicLines.
- AnimatedMetricsCard.Target: parses digit strings exactly, while `parseInt` loses precision beyond 2^53.
- LandingPage.Page.HandleHeroPointerMove: requires a box of positive width and height; a zero-size box divides by zero in JavaScript and is not modelled.
- LandingPage.Page.HandleCtaMagnet: requires a box of positive width and height, for the same reason.
- TiltCard.TiltCard.HandleMouseMove: requires a box of positive width and height, for the same reason.
- Card3D.Card3D.HandleMouseMove: requires a mounted card to have positive width and height, for the same reason.
- DotsPattern.DotsCanvas.constructor: takes the canvas size as a non-negative real, while `canvas.width` is an integer.
- Markup, CSS classes, colour maps, SVG and canvas styling, the dash-flow keyframes, Tailwind configuration and the glow gradients are presentation and are not modelled.
- ParticleField's per-particle transition (duration, delay, infinite repeat, ease) is passed through to the library unchanged and has no member of its own.
- The remaining effects (ScrollReveal, ParallaxScroll, FloatingOrbs, GridPattern, Hero3D, Background3D, AnimatedGradientMesh, ScrollIndicator), AnimatedLogo, ComponentShowcase, SpecializationsSection and the pages under app/solucoes are not part of this model.
- The reduced-motion hook is not part of this model; its value is an input everywhere. Components with handlers take a new value through `SetReducedMotion`; the purely declarative ones (TextReveal, MotionFadeUp, the section cards' variants) are functions of it.
