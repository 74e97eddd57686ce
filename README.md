# Face analysis: close calls, annotation layout and verification report

This project is a verified Dafny model of the core logic of the face analysis
tool `findai.py`. The tool runs a face classifier on an image. For every
detected face it receives a bounding region and two label-to-score
distributions, one for race and one for gender. Three pieces of the
`FaceAnalysisGUI` class are modelled:

- **The close-call rule** (`check_close_call`). It sorts a distribution by
  score, highest first, with a stable sort. When there are at least two
  labels and the gap between the two best scores is at most
  `close_call_threshold * 100`, it reports a close call with both entries and
  their difference. The threshold defaults to 0.06, so the gap limit is 6.
  Module `CloseCall`, file `close_call.dfy`.
- **The annotation layout** (`draw_face_boxes`). It draws on a copy of the
  image. For every face with a positive width and height it draws five
  outline rectangles, a "Face #N" label tag above the box and a numbered
  circle at the box centre. Faces are numbered from 1 in detection order, and
  a face that is not drawn still takes up its number. This is modelled as a
  `Canvas` class whose drawing methods append primitives, driven by a loop
  that is proved equal to the function `Layout`. Module `Annotation`, file
  `annotation.dfy`.
- **The verification report** (`display_results`). It walks the faces,
  builds a detail block per face (both analyses with their scores sorted, and
  at most one close-call warning) and collects the numbers of the faces that
  need human verification. It then inserts a summary followed by the
  details. The loop is modelled as methods proved equal to the functions
  `Flagged`, `Details` and `ReportLines`. Module `Report`, file `report.dfy`.

The classifier's records are defined in `FaceData` (`face_data.dfy`). A
dictionary is a sequence of `(name, score)` entries in insertion order, and a
missing key is an empty map, an empty distribution or `None`. `SeqFacts`
(`seq_facts.dfy`) holds two sequence lemmas: `PrefixOfConcat` and `ConcatAt`.

Two behaviours are modelled as written:

- When race and gender are both close calls, the `if`/`elif` at
  findai.py:321-334 emits only the race warning. The face is flagged either
  way.
- An empty result list returns after one "No faces detected" line, without a
  summary (findai.py:282-284).

## Model

| member | source | states |
|---|---|---|
| CloseCall.CheckCloseCall | findai.py:137-155 | Fewer than two labels gives no close call. With two or more, it is a close call exactly when the best score minus the runner-up's score is at most `threshold * 100`. A close call carries the first maximal entry, the runner-up and their difference, which lies between 0 and `threshold * 100`. |
| CloseCall.CloseCallPicksTwoEntries | findai.py:143-153 | The two entries of a close call are entries of the distribution at two different positions. |
| CloseCall.WhiteBlackExample | findai.py:19 | At the default threshold 0.06, White 52 against Black 48 is a close call with difference 4. |
| CloseCall.SortDesc | findai.py:141 | The sorted items have the same length as the input and their scores never increase. |
| CloseCall.SortDescPermutes | findai.py:141 | Sorting only reorders: the sorted items are the same multiset as the input. |
| CloseCall.SortDescHead | findai.py:141-143 | Stability: the sorted list is the first entry of highest score, followed by the sorted list of all other entries in their original order. |
| CloseCall.SortDescSecond | findai.py:141-144 | The first two sorted items are the first maximal entry and the first maximal entry among the others, which is the runner-up. |
| CloseCall.ArgMax | findai.py:141-143 | The chosen index has a score at least every other score, and every earlier entry scores strictly lower. |
| CloseCall.SecondIndex | findai.py:141-144 | The runner-up index differs from the leader's, scores at least every other non-leader, and every earlier non-leader scores strictly lower. |
| CloseCall.InsertDescSorted | findai.py:141 | Inserting an entry into a sorted list keeps it sorted. |
| CloseCall.InsertDescPermutes | findai.py:141 | Insertion adds exactly the inserted entry to the multiset of entries. |
| FaceData.RegionOf | findai.py:221-225 | Each coordinate is the region's value for that key when present and 0 when missing. The box has a positive width and height exactly when `w` and `h` are both present and positive, so a region missing either is never drawn. |
| Annotation.DrawFaceBoxes | findai.py:206-279 | The loop draws exactly `Layout(results)`: face by face, the counter incremented for every face, drawn or not. |
| Annotation.DrawFace | findai.py:227-277 | A drawable face appends its five outlines, its label tag and its marker to the canvas, in drawing order. |
| Annotation.DrawOutline | findai.py:228-234 | The canvas gains outline passes 0 to 4, each the box grown by the pass number on every side. |
| Annotation.DrawLabelTag | findai.py:236-253 | The canvas gains the tag's background rectangle and then its "Face #N" text. |
| Annotation.DrawMarker | findai.py:255-277 | The canvas gains the circle at the box centre and then the number inside it. |
| Annotation.Canvas.DrawRectangle | findai.py:229-251 | Appends one rectangle to the drawn primitives and changes nothing else. |
| Annotation.Canvas.DrawText | findai.py:253-276 | Appends one text to the drawn primitives and changes nothing else. |
| Annotation.Canvas.DrawEllipse | findai.py:264 | Appends one ellipse to the drawn primitives and changes nothing else. |
| Annotation.FaceDrawing | findai.py:227 | A region with a non-positive width or height draws nothing. Any other region draws exactly nine primitives. |
| Annotation.Layout | findai.py:217-279 | Nine primitives per drawn face and none for a skipped one. |
| Annotation.LayoutFace | findai.py:217-227 | The primitives of face `j` are exactly its own drawing, numbered `j + 1`, placed after those of the drawn faces before it. Marker numbers follow detection order even when earlier faces are skipped. |
| Annotation.OutlineGeometry | findai.py:228-234 | Outline pass `t`, for `t` from 0 to 4, spans `(x - t, y - t)` to `(x + w + t, y + h + t)`. |
| Annotation.LabelTagGeometry | findai.py:236-253 | The label text "Face #N" starts at `(x, max(0, y - th - 10))`, so never above the image. It sits either at the top edge or exactly 10 pixels above the box. Its background spans `(lx - 5, ly - 5)` to `(lx + tw + 10, ly + th + 5)`. |
| Annotation.MarkerGeometry | findai.py:255-277 | The circle is centred at `(x + w // 2, y + h // 2)`, which lies inside the box. Its radius `max(nw, nh) // 2 + 10` is at least 10. The number is drawn at `(cx - nw // 2, cy - nh // 2)`, and its measured box fits inside the circle's bounding square. |
| Annotation.FaceLabel | findai.py:236 | The label is "Face #" followed by decimal digits that read back as the face number. |
| Annotation.FaceLabelsDistinct | findai.py:217-236 | Different face numbers get different labels. |
| Annotation.DecimalString | findai.py:258 | `str(n)` is a non-empty string of decimal digits with no leading zero. |
| Annotation.DecimalStringRoundTrip | findai.py:258 | Reading the decimal string of `n` back gives `n`. |
| Report.DisplayResults | findai.py:281-353 | The inserted text is exactly `ReportLines(results)`. |
| Report.CollectDetails | findai.py:286-337 | The loop counts every face, collects exactly `Flagged(results)` and builds exactly `Details(results)`. |
| Report.FaceDetail | findai.py:290-337 | The block of one face is `FaceBlock`. It needs verification exactly when race or gender is a close call. |
| Report.AppendCategory | findai.py:297-317 | Appends the category header, the dominant hint and the score lines of the sorted distribution. |
| Report.AppendScores | findai.py:306-317 | Appends one score line per ranked entry, in order. |
| Report.ReportLines | findai.py:281-284 | The report is the single "no faces detected" line exactly when there are no faces. |
| Report.ReportOpening | findai.py:339-353 | A non-empty report opens with the summary header and the total face count. It then has either the number of flagged faces and their numbers, or the all-clear line, and continues with the block of face 1. |
| Report.Flagged | findai.py:336-337 | The flagged numbers are at most as many as the faces, each between 1 and the face count, and strictly increasing, so each appears once. |
| Report.FlaggedIff | findai.py:319-337 | Number `n` is flagged exactly when it lies between 1 and the face count and face `n`'s race or gender is a close call. |
| Report.Warnings | findai.py:321-334 | At most one warning. There is one exactly when race or gender is close, and it is the race warning whenever race is close. |
| Report.WarningIffFlagged | findai.py:321-337 | A face's block ends with a warning exactly when the face is flagged, and no other line of it is a warning. |
| Report.BothCloseOnlyRaceWarning | findai.py:321-334 | When race and gender are both close, the block's only warning is the race warning. |
| Report.RankedScores | findai.py:306-317 | The score lines list every entry of the distribution once, highest score first. |
| Report.DetailsFace | findai.py:286-295 | The block of face `j` is headed with number `j + 1` and follows the blocks of all earlier faces. |
| Report.ScoreLines | findai.py:306-307 | One score line per entry, with the same name and score, in the same order. |

## Left out

- The Tkinter window, widgets, dialogs, status and progress bars, button state, and the toggle and clear handlers are user-interface plumbing.
- Running the analysis on a background thread is concurrency around the core.
- The classifier call (`DeepFace.analyze`) is an external library. Its results are the model's input.
- PDF rasterisation and temporary files are file I/O.
- Pixels, colours, line widths, fills and font loading with its fallback are not modelled; only coordinates are. Text measurement (`textbbox`) is the parameter `measure`, which returns a non-negative width and height.
- CloseCall.CheckCloseCall: scores are exact reals. Floating-point rounding is not modelled, for example `0.06 * 100` evaluating to slightly more than 6.
- Report.DisplayResults: the report is a sequence of structured lines, not formatted text. Separator lines, exact wording and `:.2f` rounding are not modelled.
- A record key present with a non-dictionary value, or a score that is not a number, is not modelled. The classifier always supplies these.
