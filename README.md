# Shiny detector: a Dafny model of the sampling and controller loop

The modelled program watches a screen capture of a handheld-console window,
averages the colour of a small fixed rectangle of each frame, and answers a
microcontroller on a serial link. When the microcontroller sends the line
`start`, the program replies `shiny` if the sampled colour is off the expected
colour by more than a tolerance in some channel. Otherwise it replies
`not_shiny` and counts one more encounter.

The model covers four parts of `python/shiny_detector.py`:

- `window_resolver.dfy` (module `WindowResolver`): the startup search for the
  capture window, over an abstract title lookup. The first name whose FIRST
  match is not minimized wins. Startup aborts when no name qualifies.
- `frame.dfy` (module `Frame`): one frame's sampling. The BGRA frame becomes a
  BGR frame. The one-pixel region-of-interest box from (55,145) to (70,155) is
  drawn in place into that `array2`. Then the half-open slice of rows 145..154
  and columns 55..69 (150 pixels) of the same frame is averaged per channel and
  truncated to integers. Because the box is drawn first, 24 of the 150
  averaged pixels are box-green (0,255,0): the first row and the first column
  of the slice.
- `classify.dfy` (module `Classify`): the decision against the BGR reference
  (132,125,30) with tolerance 5, using a strict `>`. It also proves what the box
  does to the decision: a screen showing exactly the reference colour is
  sampled as (110,145,25) and classified shiny.
- `trigger.dfy` (module `Trigger`): Python's `str.strip()` (with the whitespace
  set of `str.isspace()`), written as a forward scan past leading whitespace
  and a backward scan past trailing whitespace, and the case-sensitive
  comparison with `start`.
- `controller.dfy` (module `Controller`): the state kept across iterations.
  The class `Detector` holds the encounter counter, the lines waiting on the
  link and the replies written. `Receive` is a line reaching the link,
  `Step` is the controller part of one iteration and `LoopIteration` a whole
  iteration. The pure `Iteration` and `Run` functions specify them; `Run`
  takes, for each iteration, the lines that arrived before it and the colour
  it sampled, and lemmas over `Run` cover any number of iterations.

`wrappers.dfy` holds the `Option` type.

Two consequences of the code that are easy to miss:
- The box is drawn into the same frame that is then sliced and averaged
  (python/shiny_detector.py:71, 74-75), so box pixels are part of the average
  (`Frame.RoiSumSplit`).
- A line such as `"start "` or `" start\t"` triggers, because the line is
  stripped before the comparison (python/shiny_detector.py:81-82;
  `Trigger.TriggerAccepts`).

## Model

| member | source | states |
|---|---|---|
| `WindowResolver.FindCaptureRegion` | python/shiny_detector.py:24-38 | Returns None exactly when no name's first match is a non-minimized window; otherwise returns the rectangle of the first window of the first name (in order) whose first window is not minimized, with every earlier name failing that test |
| `WindowResolver.StartMonitor` | python/shiny_detector.py:40-42 | With the default names "DS Capture" then "3DSCapture", startup aborts iff neither name's first match is a visible window; otherwise it monitors the first such window's rectangle, preferring "DS Capture" |
| `WindowResolver.OnlyFirstMatchConsulted` | python/shiny_detector.py:27-30 | Two lookups that agree on which names have matches and on each first match give the same result, whatever the later windows are |
| `WindowResolver.MinimizedFirstMatchSkipsName` | python/shiny_detector.py:29-30 | A minimized first match makes the search continue with the next name even when a later window of the same name is visible |
| `Frame.DrawRectangle` | python/shiny_detector.py:71 | Writes the colour into exactly the pixels on the rows y0 and y1 between x0 and x1 and the columns x0 and x1 between y0 and y1, corners included; every other pixel keeps its value |
| `Frame.SampleFrame` | python/shiny_detector.py:67-75 | Returns a fresh BGR frame equal to the grabbed frame without alpha and with the box drawn in, and the average of the region of that drawn-on frame (the specification function `SampleColour`) |
| `Frame.Average` | python/shiny_detector.py:75 | Each channel of the truncated mean is the largest integer whose pixel-count multiple does not exceed the channel sum, and lies in 0..255 |
| `Frame.RoiOfBoxedFrame` | python/shiny_detector.py:71-74 | In the averaged slice the whole first row and the whole first column are box-green, and every other pixel is the frame's own pixel |
| `Frame.LeadingColumnSum` | python/shiny_detector.py:71-75 | Rows that each start with the same pixel sum to that pixel once per row plus the sums of the rest of the rows |
| `Frame.OutlinedRegionSum` | python/shiny_detector.py:71-75 | A 10 x 15 region whose first row and first column are green sums to 24 green pixels plus the sum of the other 9 x 14 pixels |
| `Frame.RoiSumSplit` | python/shiny_detector.py:71-75 | The slice's channel sums are 24 green box pixels plus the sums of the 9 x 14 frame pixels inside the box |
| `Frame.UniformSample` | python/shiny_detector.py:67-75 | A screen of one colour (b,g,r) is sampled as (126b/150, (126g + 6120)/150, 126r/150), truncated |
| `Frame.SampleDependsOnlyOnInterior` | python/shiny_detector.py:68-75 | Two frames whose blue, green and red channels agree on the 9 x 14 pixels inside the box give the same sample: alpha, the box lines and everything outside the slice never contribute |
| `Classify.IsShiny` | python/shiny_detector.py:90-91 | Shiny iff the largest channel difference from (132,125,30) is strictly greater than 5; not shiny iff blue is in 127..137, green in 120..130 and red in 25..35 |
| `Classify.ClassificationExamples` | python/shiny_detector.py:57-58 | (132,125,30), (137,125,30) and (127,120,35) are not shiny; (138,125,30) and (120,125,30) are shiny |
| `Classify.ReferenceColouredScreenIsShiny` | python/shiny_detector.py:57-75 | A screen that shows the reference colour everywhere is sampled as (110,145,25) and classified shiny |
| `Classify.UniformScreenNotShinyIff` | python/shiny_detector.py:67-91 | A one-colour screen is classified not shiny iff its blue is 152..164, green 95..107 and red 30..42 |
| `Trigger.SkipLeading` | python/shiny_detector.py:81 | The leading-whitespace scan stops at the first non-whitespace character at or after its start, or at the end, having passed only whitespace |
| `Trigger.SkipTrailing` | python/shiny_detector.py:81 | The trailing-whitespace scan stops just after the last non-whitespace character before its end (not going below its lower bound), having passed only whitespace |
| `Trigger.StripShape` | python/shiny_detector.py:81 | The stripped line is a slice of the line with only whitespace before and after it, and it neither starts nor ends with whitespace |
| `Trigger.StripUnique` | python/shiny_detector.py:81 | Any slice with only whitespace around it and no whitespace at its ends is the stripped line |
| `Trigger.TriggerIff` | python/shiny_detector.py:81-82 | A line triggers iff it is exactly "start" with nothing but whitespace before and after it |
| `Trigger.TriggerAccepts` | python/shiny_detector.py:81-82 | "start", "start\r\n" and " start\t" trigger |
| `Trigger.TriggerRejects` | python/shiny_detector.py:81-82 | "Start", "START\n", "start!", "st art" and the empty line do not trigger |
| `Controller.Detector.constructor` | python/shiny_detector.py:60 | The run starts with the counter at 0 and nothing written, whether or not the link is connected |
| `Controller.Detector.Receive` | python/shiny_detector.py:80-81 | A line reaching the link joins the end of the waiting input; the counter and the replies are unchanged and stay tallied |
| `Controller.Detector.Step` | python/shiny_detector.py:80-107 | Keeps the counter equal to the number of "not_shiny" replies, and moves the state exactly as `Iteration`: no link or no waiting line changes nothing; otherwise one line is read, a trigger appends exactly one reply and only "not_shiny" adds one to the counter |
| `Controller.Detector.LoopIteration` | python/shiny_detector.py:66-107 | One loop iteration answers with the colour sampled from that iteration's frame, and returns the drawn-on frame for the preview |
| `Controller.RunConnected` | python/shiny_detector.py:80-104 | Over any number of connected iterations with lines arriving between them, there is a read log (`Served`) in which each iteration reads at most one line, never a line that has not arrived, and reads nothing only when every arrived line was already read; the lines read are, in order, a prefix of the waiting and arriving lines and the rest stays waiting; the replies written are exactly one per trigger read, in order, each classified with the colour of the iteration that read it; the counter grows by the number of those replies that are "not_shiny" |
| `Controller.RunDisconnected` | python/shiny_detector.py:80 | Without a link, any number of iterations reads nothing, writes nothing and leaves the counter unchanged; lines that arrive only accumulate |
| `Controller.CountNeverDecreases` | python/shiny_detector.py:95-100 | The counter never decreases over any number of iterations, whatever arrives |
| `Controller.OccurrencesAppend` | python/shiny_detector.py:95-100 | The number of "not_shiny" replies in two stretches of replies is the sum of the two counts |
| `Controller.OccurrencesSnoc` | python/shiny_detector.py:95-100 | Appending one reply adds one to its count of "not_shiny" replies exactly when that reply is "not_shiny" |
| `Controller.IterationKeepsTally` | python/shiny_detector.py:95-102 | An iteration keeps the counter equal to the number of "not_shiny" replies and keeps every reply one of the two words |
| `Controller.RunKeepsTally` | python/shiny_detector.py:60-102 | From such a state, any number of iterations, with any arrivals, keeps the counter equal to the number of "not_shiny" replies |
| `Controller.ConsecutiveTriggers` | python/shiny_detector.py:80-104 | Two trigger lines waiting at the head of the input get two replies in two iterations, each classified with its own iteration's colour, while lines arriving meanwhile wait behind them |

## Left out

- Opening the serial port (`COM3`, 9600 baud, the 2-second timeout, the reset delay and `reset_input_buffer`) is modelled only as the `connected` flag fixed at construction; `flush` and `close` are not modelled.
- Reading from the link: the model's inbox holds lines already received and decoded, and lines arrive between iterations (a line that arrives while an iteration samples its frame is first seen by the next `in_waiting` test, as in the model). Byte-level buffering, a `readline` that times out with a partial line, and UTF-8 decoding with invalid bytes dropped are not modelled.
- All `time.sleep` calls (startup, window activation, the 2-second settle delay, the 0.3-second pause after a reply) are not modelled. The model keeps their one observable effect: the reply uses the colour sampled earlier in the same iteration.
- Screen capture (`mss`) and the window library are inputs: the grabbed frame is an `array2<Bgra>` and the title lookup a function. Title matching rules and `win.activate()` are not modelled.
- The preview window, the quit key, `destroyAllWindows` and every `print` are not modelled. The loop's termination by the quit key is therefore absent: `Run` covers any finite number of iterations.
- `cv2.mean` works in floating point. The model uses the exact integer quotient, so a float sum that rounds just below an integer before truncation is not captured.
- Frame.SampleFrame: requires a frame at least 156 rows by 71 columns. For smaller frames the box drawing clips and the slice shrinks, and neither is modelled.
- Frame.DrawRectangle: requires both corners inside the image, because the only call site meets that. OpenCV's clipping of off-image outlines and line types other than the default are not modelled.
- I/O errors that end the process (a failed grab or write) are not modelled.
