# Emotional desktop bot — a Dafny model

This project models the decision logic of the two scripts of the emotional desktop bot.

**Reaction controller** (`Face-Reaction-Detection.py`). Each cycle captures a frame and finds faces. It classifies the first face into one of seven emotions and shows a matching pair of eyes on a small display. A debounce policy stops the display from flickering:
- a face redraws the display only when its label differs from the one on screen (`prev_emotion`) and its confidence is strictly above 0.4;
- a frame without a face draws the neutral eyes, unless they are already showing.

The model has these parts:
- `Emotion`: the label set, `np.argmax` and `np.max`.
- `Expression`: the four eye patterns, the label-to-pattern dispatch, and the canvas as a class. Each `draw_*` method clears the canvas, draws its shapes and flushes the image.
- `Reaction`: one cycle as a pure function `Cycle` over (`prev_emotion`, `frame_count`), and runs of cycles as `Run`. The `ReactionController` class keeps both variables as fields; its `Step`, `RunCycles` and `Shutdown` methods are proved against those functions.

**Voice assistant** (`ai_chatbot_gemini.py`). This loop listens, answers through the Gemini API, and speaks each answer. `Chatbot` models:
- the exit-word test;
- the `None` and "unclear" handling;
- the 20-answer cap;
- the ordered mapping from an API error to a spoken message;
- the audio-player fallback order.

The main loop is a method, `ChatLoop`, proved equal to a function, `Converse`. `Shell` models the quoting of the `espeak` fallback command (see Findings). `Text` holds `str.lower()` and the `in` substring test.

Speech recognition, the API call and the shell are inputs to the model:
- `listen` results are a sequence of `Option<string>`;
- the API is a function `ask(n, prompt)` giving the reply to the n-th question;
- `os.system` is a function from a command line to its exit status.

A camera frame is a `Frame`: the detector's face regions in scan order, plus the classifier's prediction vector for any region of that frame.

## Model

| member | source | states |
|---|---|---|
| Emotion.ArgMax | Face-Reaction-Detection.py:171 | the index returned is of a maximal entry, and every earlier entry is strictly smaller (first maximum wins) |
| Emotion.Max | Face-Reaction-Detection.py:172 | the value bounds every entry and is one of the entries |
| Emotion.Classify | Face-Reaction-Detection.py:170-172 | the label is `emotion_labels[i]` for an index i whose probability is the confidence, and the confidence is at least every probability |
| Emotion.ClassifyDominant | Face-Reaction-Detection.py:171-172 | a strictly dominant class is the label, with its probability as the confidence |
| Emotion.ClassifyTieBreak | Face-Reaction-Detection.py:171 | on a tie for the maximum, a later label is never chosen |
| Expression.PatternShapes | Face-Reaction-Detection.py:47-79 | every pattern has at least one shape, and every shape, stroke included, lies inside the top 240 rows that `clear` paints, so a clear erases any earlier pattern completely |
| Expression.Dispatch | Face-Reaction-Detection.py:85-92 | a non-neutral pattern is chosen only for its own label (Happy, Sad, Angry); every other string, including Disgust, Fear, Surprise and unknown text, gets the neutral eyes |
| Expression.DispatchName | Face-Reaction-Detection.py:82-92 | each pattern's own label dispatches to that pattern |
| Expression.PatternShapesInjective | Face-Reaction-Detection.py:47-79 | different patterns draw different images |
| Expression.Canvas.constructor | Face-Reaction-Detection.py:27-28 | a new canvas is blank and nothing has been pushed to the panel |
| Expression.Canvas.Clear | Face-Reaction-Detection.py:43-44 | the image becomes blank; the panel is untouched |
| Expression.Canvas.DrawLine | Face-Reaction-Detection.py:50 | one line is added on top of the image |
| Expression.Canvas.DrawEyeRect | Face-Reaction-Detection.py:33-34 | one rounded rectangle is added on top of the image |
| Expression.Canvas.ShowOnTft | Face-Reaction-Detection.py:36-41 | the current image is pushed to the panel, unchanged |
| Expression.Canvas.DrawHappy | Face-Reaction-Detection.py:47-54 | the image is exactly the happy eyes, whatever it held before, and that image is pushed |
| Expression.Canvas.DrawSad | Face-Reaction-Detection.py:56-63 | the image is exactly the sad eyes, whatever it held before, and that image is pushed |
| Expression.Canvas.DrawAngry | Face-Reaction-Detection.py:65-72 | the image is exactly the angry eyes, whatever it held before, and that image is pushed |
| Expression.Canvas.DrawNeutral | Face-Reaction-Detection.py:74-79 | the image is exactly the neutral eyes, whatever it held before, and that image is pushed |
| Expression.ShowEmotionOnDisplay | Face-Reaction-Detection.py:82-95 | exactly one image is pushed: the dispatched pattern for the label, independent of the previous canvas |
| Expression.ShowTwice | Face-Reaction-Detection.py:82-95 | rendering the same label twice pushes the same image twice (idempotent rendering) |
| Reaction.FirstFace | Face-Reaction-Detection.py:163-172 | the classification comes from the first region's prediction alone: the label of a maximal class, with that class's probability as the confidence |
| Reaction.Cycle | Face-Reaction-Detection.py:156-184 | `frame_count` grows by exactly one; the display state changes only when a label is rendered, then becomes that label, and the rendered label always differs from the old state |
| Reaction.FaceCycle | Face-Reaction-Detection.py:174-177 | with a face, a render happens if and only if the first face's label differs from `prev_emotion` and its confidence is strictly above 0.4; the rendered label is that label |
| Reaction.LowConfidenceKeepsState | Face-Reaction-Detection.py:174 | a confidence of 0.4 or less, 0.4 included, leaves the state unchanged apart from the frame count, with no render |
| Reaction.FirstFaceOnly | Face-Reaction-Detection.py:163-179 | frames whose first regions get the same prediction give the same cycle, whatever the later regions are |
| Reaction.NoFaceCycle | Face-Reaction-Detection.py:180-184 | with no face, Neutral is rendered once and becomes the state if the state was not Neutral; otherwise nothing is rendered and the state is kept |
| Reaction.NoFaceTwice | Face-Reaction-Detection.py:182-184 | two faceless cycles in a row render at most once in total, and the second leaves the state as the first left it |
| Reaction.Run | Face-Reaction-Detection.py:155-186 | after n cycles `frame_count` has grown by exactly n, and at most n renders happened |
| Reaction.RunStateIsLastShown | Face-Reaction-Detection.py:174-184 | after any run, `prev_emotion` is the last label rendered, or its initial value if nothing was rendered |
| Reaction.RunNeverRepeats | Face-Reaction-Detection.py:174-184 | no render repeats the label on display: the first differs from the initial state and consecutive renders differ |
| Reaction.ReactionController.constructor | Face-Reaction-Detection.py:151-152 | `prev_emotion` starts as None and `frame_count` at 0 |
| Reaction.ReactionController.Step | Face-Reaction-Detection.py:155-186 | the fields become `Cycle` of the old fields; the panel receives the image of the rendered label if there was one, and the canvas is untouched otherwise |
| Reaction.ReactionController.RunCycles | Face-Reaction-Detection.py:154-186 | after the loop over a sequence of frames, the fields, the render log and the pushed images are those `Run` gives; the canvas is `Showing` of the renders: the pattern of the last label rendered, or what it held before if nothing was rendered |
| Reaction.ShowingIsDisplayState | Face-Reaction-Detection.py:174-184 | after any run the canvas agrees with `prev_emotion`: it holds the pattern of the display state when something was rendered, and is untouched, with `prev_emotion` unchanged, when nothing was |
| Reaction.ReactionController.Shutdown | Face-Reaction-Detection.py:194-199 | on exit the image is cleared and the blank image is pushed |
| Text.Lower | ai_chatbot_gemini.py:75 | `str.lower()` on ASCII: the result has the same length and no upper-case letter; each upper-case letter becomes its lower-case partner and every other character is kept |
| Text.Contains | ai_chatbot_gemini.py:127 | Python's substring `in`: true exactly when the word occurs at some position of the string |
| Text.LowerIdempotent | ai_chatbot_gemini.py:127 | lower-casing twice equals lower-casing once |
| Chatbot.AnyOccurs | ai_chatbot_gemini.py:127 | `any(word in s for word in words)`: true exactly when some word of the list occurs in the string |
| Chatbot.WantsToLeave | ai_chatbot_gemini.py:126-127 | true exactly when one of goodbye, exit, quit, bye, stop occurs in the lower-cased input |
| Chatbot.WantsToLeaveIgnoresCase | ai_chatbot_gemini.py:127 | the exit test gives the same answer for an input and its lower-cased form |
| Chatbot.WantsToLeaveInsideWord | ai_chatbot_gemini.py:126-127 | the test matches inside words: "Is it quite far?" ends the conversation |
| Chatbot.ErrorReply | ai_chatbot_gemini.py:72-80 | an API error always maps to one of the four fixed messages |
| Chatbot.ErrorReplyCases | ai_chatbot_gemini.py:73-80 | each message is given exactly under its own condition, first match wins: "404"; else "quota" in any case; else "API key" in exact case; else the generic apology |
| Chatbot.AiResponse | ai_chatbot_gemini.py:62-80 | a non-empty reply text is returned unchanged; an empty one gives the rephrase request; an error gives its mapped message; the result is never empty |
| Chatbot.Prompt | ai_chatbot_gemini.py:55 | the prompt is the fixed instruction followed by the question, unchanged |
| Chatbot.PlayResponse | ai_chatbot_gemini.py:92-95 | the players tried are a non-empty prefix of mpg321, play, mpg123; every player but the last tried failed; it stops early only after a success |
| Chatbot.Speak | ai_chatbot_gemini.py:82-102 | when the speech file was saved, the player commands run in order, stopping at the first success, and the `espeak` command follows only if removing the file failed; when saving failed, only the `espeak` command runs |
| Chatbot.Converse | ai_chatbot_gemini.py:114-143 | what was spoken and asked only grows; at most 20 questions reach the AI; the cap is the ending exactly when 20 were asked |
| Chatbot.QuestionAnswered | ai_chatbot_gemini.py:131-143 | a question is sent once, as question number `conversation_count`; its answer is spoken and the count grows by exactly one; at the 20th question the closing remark is spoken and the loop ends, otherwise listening goes on |
| Chatbot.AskedAreQuestions | ai_chatbot_gemini.py:119-133 | no input that is "unclear" or contains an exit word is ever sent to the AI |
| Chatbot.ExitSaysGoodbye | ai_chatbot_gemini.py:126-129 | an input containing an exit word gets exactly the farewell, ends the conversation and sends nothing to the AI |
| Chatbot.ExitEndsConversation | ai_chatbot_gemini.py:126-129 | once an exit word is heard, nothing heard afterwards changes the outcome |
| Chatbot.SilenceIgnored | ai_chatbot_gemini.py:119-120 | removing every `None` from what was heard changes nothing: silence is skipped without speech or counting |
| Chatbot.UnclearRepeats | ai_chatbot_gemini.py:121-123 | "unclear" adds exactly one repeat prompt and leaves the count unchanged |
| Chatbot.ChatLoop | ai_chatbot_gemini.py:110-143 | the loop's result equals `Converse` from the greeting, with at most 20 questions asked |
| Shell.EscapeQuotes | ai_chatbot_gemini.py:101 | the escaped text never starts with a double quote and is never shorter than the text; text without a double quote is left exactly as it is |
| Shell.EscapeQuotesRoundTrip | ai_chatbot_gemini.py:101 | removing the backslash of every `\"` pair of the escaped text gives the original text back |
| Shell.EscapeQuotesPrecedesQuotes | ai_chatbot_gemini.py:101 | every double quote in the escaped text has a backslash just before it |
| Shell.EscapeQuotesBackslashBreaks | ai_chatbot_gemini.py:101-102 | for the text `\` the as-written command does not pass the text to `espeak` |
| Shell.EscapeQuotesDollarExpands | ai_chatbot_gemini.py:101-102 | the as-written quoting lets `$HOME` reach the shell as an expansion |
| Shell.ShellEscapeRoundTrip | ai_chatbot_gemini.py:101-102 | with `\`, `"`, `$` and backquote escaped, the shell reads any text back as exactly one word equal to it |
| Shell.EspeakCommand | ai_chatbot_gemini.py:102 | the fallback command is `espeak -s 150 "`, then the quoted text, which the shell reads back as exactly the text |

## Left out

- Hardware setup is not modelled: the SPI pins, the display driver, the camera configuration, the Haar-cascade and model loading, and their `exit(1)` paths (Face-Reaction-Detection.py:12-22, 115-145). Neither is the startup colour flash and its initial `draw_neutral` (lines 97-113). A controller is created with whatever canvas that sequence left.
- Pixels are not modelled: colours, line widths as rasterised and the 90-degree rotation in `show_on_tft`. The canvas is the list of shapes drawn since the last clear, on a background-coloured image. A pushed image is that list.
- Vision and inference are inputs. Capture, grayscale conversion, detection, cropping, resizing, normalisation and the Keras prediction come in as `Frame`: the regions and a prediction function. `Reaction.WellFormed` requires 7 entries in the first region's prediction. This is the model artifact's output size.
- Floating point is left out. The classifier's float32 outputs become exact reals in `Frame.predict`, and the 0.4 threshold is the exact real 0.4. Two float behaviours are therefore not modelled:
  - a NaN entry, for which `np.argmax` returns the NaN's index and every comparison is false;
  - the float32 value nearest 0.4, which may or may not count as `> 0.4` depending on NumPy's scalar promotion rules.
- `time.sleep` and the console `print`s carry no logic and are left out.
- Drawing and pushing are assumed never to fail. The script catches a display error inside `show_on_tft` and an error inside `show_emotion_on_display`, and `prev_emotion` is still updated. In the model, though, `Canvas.flushed` would record a push that never happened, and a draw that raised part-way would leave `Canvas.shapes` partly drawn with nothing pushed. Those paths are not modelled.
- Any other exception in the main loop ends the loop (the handler sits outside `while True`). `RunCycles` models the cycles before that point, and `Shutdown` models the cleanup that follows. Stopping the camera is not modelled.
- Voice-assistant I/O is left out: the microphone, speech recognition, gTTS synthesis, the `/tmp` file write and removal, and `os.system` itself. The model is given their outcomes. `Speak` takes two flags, whether synthesis and saving succeeded and whether the removal succeeded, plus each command's exit status. The model-selection fallback chain (ai_chatbot_gemini.py:14-23) and the generation settings are left out too.
- The interrupt handler of the chatbot (ai_chatbot_gemini.py:146-154) is left out.
- Text.Lower: maps only the ASCII letters A-Z. Python's `str.lower()` also lower-cases other Unicode letters, so for non-ASCII input the exit test may differ.
- Chatbot.ChatLoop: models the loop over a finite sequence of `listen` results. When the sequence runs out before an exit, the model stops with the ending `Listening`, whereas the script would go on listening.
- Chatbot.Speak: builds the `espeak` fallback with the corrected quoting `Shell.ShellEscape`, not the script's `EscapeQuotes` (see Findings).

## Findings

| source | as written | input that shows it | evidently intended | confidence | as-written member | corrected member |
|---|---|---|---|---|---|---|
| ai_chatbot_gemini.py:101-102 | only `"` is backslash-escaped before the text is put between double quotes for `sh` | the text `\` (a lone backslash): the command ends in `\"`, so the closing quote is read as a literal and the quote never closes. The text `$HOME` is expanded by the shell | the spoken text reaches `espeak` as one literal argument | high; not executed | Shell.EscapeQuotesBackslashBreaks | Shell.ShellEscapeRoundTrip |

In `Shell`, `ReadQuoted` states how the shell reads a double-quoted word, following section 2.2.3 of the POSIX Shell Command Language. It treats any unescaped `$` or backquote as an expansion, which is stricter than the standard.
