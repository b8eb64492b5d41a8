# Portfolio site core, modelled in Dafny

The site (`app.py`) is a small Flask application. Three pieces of logic sit inside its request
handlers, and this project models them together with the icon choice:

- **Block transcoder and post assembly** (`load_posts_from_notion`). Every published workspace
  record becomes a post. Its title comes from the "Project Name" title property, or is
  "Untitled". Its content is the concatenation, in order, of a fixed HTML fragment per child
  block. A block's text is the `" "`-join of its rich-text runs' `plain_text`, inserted without
  escaping. Module `NotionContent`, file `notion_content.dfy`. `LoadPosts` is a method whose two
  nested loops keep `content == RenderAll(blocks[..j])`.
- **Pagination** (`portfolio`). The requested index is clamped into range. Previous and next
  wrap around with Python's `%`. With no posts a fixed placeholder is shown and both indices
  are 0. Module `Portfolio`, file `portfolio.dfy`.
- **Page icon** (`get_page_icon`). An emoji, or the URL of a `file` or `external` icon, or
  nothing. Module `PageIcons`, file `page_icons.dfy`.
- **Contact verification** (`contact`, `verify_email`). Class `Contact.ContactSession` holds the
  session's pending submission and the outbox of sent mails. A full submission is stored and a
  verification link is mailed to the submitter. A valid token with a stored submission mails the
  site owner and clears the session. The class invariant says that each relayed message
  consumed one pending submission, and each submission mailed one link. File `contact.dfy`.

`options.dfy` holds the `Option` type used for absent keys and fields.

Python's `%` floors, and Dafny's is Euclidean. Both give the same result for a positive divisor,
which is the only case `portfolio` reaches. `PyMod` states both halves of Python's `a % n`: the
result lies in `[0, n)` and differs from `a` by a multiple of `n`.

Notes on what the code does:

- Image blocks read only `data["file"]["url"]` (app.py:147); an `external` image is not handled.
- `verify_email` never compares the token's email with the stored submission's. The relayed
  message carries the token's email and the session's name and message (app.py:239-243).
- An invalid or expired link leaves the pending submission in the session (app.py:229-231).
- A missing nested key raises in the code (image `file`, the "Project Name" `title`, the icon's
  own entry). The model states these as preconditions.

## Model

| member | source | states |
|---|---|---|
| NotionContent.LoadPosts | app.py:101-155 | one post per record, in input order; post k has the record's title and the concatenated rendering of its blocks |
| NotionContent.RenderAll | app.py:115-148 | the content is the in-order concatenation of the block fragments; its length is the sum of their lengths |
| NotionContent.Fragments | app.py:117-148 | the block-by-block rendering, built one block at a time, is proved to have one fragment per block, in order, fragment i being block i's rendering |
| NotionContent.KnownOnly | app.py:117-148 | the filtered list holds only known-type blocks taken from the input, and keeps every known-type block of the input |
| NotionContent.Concat | app.py:115-148 | the pieces appended in order to an empty string; its length is the sum of theirs |
| NotionContent.ConcatAppend | app.py:115-148 | concatenating two piece lists joined is concatenating each and joining the results |
| NotionContent.RenderAllEmpty | app.py:115-148 | a page's content is empty exactly when none of its blocks has a recognised type |
| NotionContent.Render | app.py:123-148 | requires only that an image block has `file`; a block renders as `""` exactly when its type is none of the twelve recognised ones; its markup is fixed by `RenderIsWrapped` |
| NotionContent.RenderAllAppend | app.py:115-148 | the content of `xs + ys` is the content of `xs` followed by that of `ys` |
| NotionContent.RenderAllIgnoresUnknown | app.py:117-148 | dropping every block of an unrecognised type leaves the content unchanged |
| NotionContent.RenderIsWrapped | app.py:123-148 | the rendering equals a separately written table: fixed opening tag, inserted string (text, image URL, nothing for a divider), fixed closing tag |
| NotionContent.RenderRoundTrip | app.py:123-148 | stripping a recognised block's tags gives back its inserted string unchanged, so no escaping happens |
| NotionContent.UnwrapWrapped | app.py:123-148 | stripping the tags succeeds with `t` exactly when the fragment is the opening tag, then `t`, then the closing tag |
| NotionContent.RawTextCollision | app.py:123-143 | a paragraph whose text starts with the box glyph yields the same markup as an unchecked to-do |
| NotionContent.ToDoGlyph | app.py:141-143 | a to-do starts with "☑ " exactly when `checked` is present and true; a missing `checked` gives "☐ " |
| NotionContent.EmptyParagraph | app.py:120-124 | a paragraph without runs, whether `rich_text` is missing or empty, renders as exactly `<br>` |
| NotionContent.HeadingExample | app.py:120-126 | two runs of a heading are joined by one space inside `<h1>` and `</h1>` |
| NotionContent.TextOfNoRuns | app.py:120-121 | a missing `rich_text` key and an empty run list both give the empty text |
| NotionContent.Join | app.py:121 | joining no pieces gives `""`; otherwise the length is the pieces' lengths plus one space between each two neighbours |
| NotionContent.PlainTexts | app.py:121 | one string per run, in order, each the run's `plain_text` |
| NotionContent.Runs | app.py:120 | a missing `rich_text` key gives no runs; a present one gives its list |
| NotionContent.Text | app.py:120-121 | no runs give `""`; otherwise the text's length is the runs' lengths plus one space between neighbours |
| NotionContent.IsChecked | app.py:142 | a to-do counts as checked exactly when `checked` is present and true |
| NotionContent.Title | app.py:106-111 | any title other than "Untitled" is the first run of a non-empty "Project Name" title |
| NotionContent.SplitJoin | app.py:121 | splitting the joined text at spaces gives back the runs, when at least one run exists and none holds a space |
| NotionContent.JoinNotInjectiveOnEmpty | app.py:120-121 | no runs and one empty run give the same text, so the round trip needs at least one run |
| NotionContent.TitleDefault | app.py:107-110 | without a "Project Name" entry, or with an empty title list, the title is "Untitled" |
| NotionContent.TitleIsFirstRun | app.py:108-111 | otherwise the title is the first run's plain text, and later runs do not affect it |
| PageIcons.PageIcon | app.py:158-166 | an icon comes back exactly for types emoji, file and external; emoji gives the emoji, the other two give their URL |
| PageIcons.PageIconReadsOnlyItsType | app.py:161-164 | the result depends only on the type and the entry that type names |
| Portfolio.ShownIndex | app.py:185-186 | the shown index lies in `[0, n)`; an in-range request is kept, a negative one gives 0, a too-large one gives n-1 |
| Portfolio.PyMod | app.py:190-191 | Python's remainder for a positive divisor: it lies in `[0, n)` and `a == q * n + r` for some integer `q` |
| Portfolio.PrevIndex | app.py:190 | previous is in range; it is i-1, or n-1 when i is 0 |
| Portfolio.NextIndex | app.py:191 | next is in range; it is i+1, or 0 on the last post |
| Portfolio.ModShift | app.py:190-191 | the remainder of -1 is n-1, of n is 0, and of an in-range number is itself |
| Portfolio.NavigationInverse | app.py:190-191 | next then previous, and previous then next, both return to the shown index |
| Portfolio.IterateShift | app.py:191 | after k ≤ n clicks on next the index has moved k places and wrapped at most once |
| Portfolio.NextCycle | app.py:191 | the next links form one cycle through all posts: n clicks return, fewer do not |
| Portfolio.Portfolio | app.py:182-193 | no posts gives the placeholder with indices 0 and 0 for any request; otherwise the clamped post with in-range wrapping indices; an absent parameter reads as 0 |
| Portfolio.ShownPostExists | app.py:186-188 | with posts, the shown post is one of them: the first for a negative request, the last for a too-large one |
| Contact.ContactSession.constructor | app.py:234-236 | a fresh session holds no submission and no mail has been sent |
| Contact.ContactSession.Valid | app.py:203-246 | a pending submission is complete, every mail has its fixed sender, subject and recipient, and relayed messages plus the pending submission never outnumber the link mails; so relayed messages never outnumber link mails |
| Contact.ContactSession.Submit | app.py:198-220 | any missing or empty field changes nothing; otherwise the submission replaces any pending one and one link mail to the submitter is appended |
| Contact.ContactSession.Verify | app.py:225-249 | an invalid link changes nothing; a lost session appends nothing; otherwise one mail to the owner is appended, with the token's email, and the session is cleared |
| Contact.ReplayScenario | app.py:234-246 | opening the same valid link twice relays the message once; the second visit reports an expired session |
| Contact.MismatchScenario | app.py:239-244 | a token signed for another email is accepted, and the relayed message names that email |
| Contact.ReuseScenario | app.py:234-244 | an earlier link opened after a later submission relays the later submission, under the earlier link's email |
| Contact.CountAppend | app.py:217-244 | appending one mail raises the count of its kind by exactly one |

## Left out

- Workspace API calls (`databases.retrieve`, `data_sources.query`, `blocks.children.list`, `pages.retrieve`) are network I/O. `LoadPosts` takes the records with their blocks already fetched. The status filter and the sort by creation time happen on the server.
- `get_data_source_id` picks the first data source of an API response; it is API plumbing.
- Token signing and checking (`generate_verification_token`, `confirm_verification_token`) is a cryptographic library. `Submit` takes the signed token as a parameter. `Verify` takes `confirm_verification_token`'s answer as an `Option<string>`. The round trip, tamper rejection and the 3600-second expiry are not modelled.
- Flask routing, templates, `flash`, `redirect` and `url_for` are not modelled. A flashed message is a `Notice` value. A mail body records the token or the relayed fields, not the rendered HTML.
- `home`, `about` and the GET branch of `contact` only render templates; they change no state.
- The mail transport (`send_email`, `sendEmail`, Flask-Mail) is modelled only as appending a record to the outbox.
- `ContactForm` is unused by the routes; its validators are library code.
- Environment and configuration loading, and the startup check on missing keys, are not modelled.
- Session storage, cookie expiry and concurrent requests are not modelled; each request is one method call.
- Portfolio.Portfolio: the `page_icon` passed to the template is not part of `View`, and `index` is an already-parsed integer. When there are posts, a non-numeric parameter raises in `int(...)`; with no posts the placeholder is returned before the parameter is read.
- NotionContent.Render: an image block without `file` raises in the source, so `Renderable` excludes it; `external` images are not supported by the code.
- PageIcons.PageIcon: a page without an icon raises in the source (`None["type"]`), so an icon is always given.
- NotionContent.Title: a "Project Name" property without a `title` list raises in the source, so `TitleReadable` excludes it.
- NotionContent.IsChecked: a non-boolean `checked` value is not modelled; the payload holds a boolean or nothing.
