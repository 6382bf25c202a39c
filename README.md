# Gerrit-to-Jenkins trigger bridge: dispatch model

This project models the consumer side of `gerrit.py`. That script is a small bridge. A background
thread streams `patchset-created` events from a Gerrit server over SSH and puts them on a shared
`queue.Queue`. The main thread takes the events off that queue one at a time. For each event whose
project is a key of the static job map `test_jobs`, it fills the Jenkins trigger URL template and
POSTs it.

The model has four modules:

- `Wrappers` (`wrappers.dfy`): the `Option` datatype. It models both the optional `change.private`
  key and the "call or no call" outcome of handling one event.
- `Text` (`text.dfy`): decimal rendering of change and patchset numbers, which is what
  `str.format` does with an `int`. It also has the inverse that reads a digit run back, and the
  string helpers the URL reader uses.
- `Template` (`template.dfy`): the fixed URL template, cut at its four `{}` placeholders. It has a
  positional `Format` like `str.format`, `BuildUrl`, and a reader `ParseUrl`. `ParseUrl` recovers
  the job, change, patchset and status token from a URL. It reads from the end of the URL, so the
  job name may contain any character. The lemmas prove that `ParseUrl` and `BuildUrl` are exact
  inverses in both directions, so the filled fields can always be read back from the URL.
- `Dispatch` (`dispatch.dfy`):
  - the `Event` datatype and the static `TestJobs` map;
  - `StatusToken`, which gives `PRIVATE` or `NEW`;
  - the per-event rule `DispatchEvent` and its extension `DispatchAll` over a whole queue, with the
    lemmas about filtering, counting and order;
  - the sample event of the source as a test vector;
  - the `Dispatcher` class. Its `queue: seq<Event>` stands for the shared `queue.Queue`. Its
    `outbox: seq<string>` stands for the sequence of `requests.post` calls. Its ghost field
    `received` records every event handed over so far. `Put` and `Get` are specified as appending
    at the tail and removing the head. `Step` is specified by `DispatchEvent` of the head, and
    `RunAll` by `DispatchAll` of the queue it finds. `Put`, `Step` and `RunAll` keep the invariant
    `Consistent`: the calls already sent, followed by the calls the queue will still cause, are
    `DispatchAll` of everything received. This holds however the puts and the loop's turns interleave.

In three places the code is stricter than a tolerant bridge would be. The model does not add the
tolerant behaviour. It leaves these paths out:

- An event of a mapped project with a missing field is not skipped. Indexing the field raises,
  and that ends the main loop. For an event of an unmapped project, gerrit.py:142 reads only
  `event['project']` before the membership test. So such an event without `change` or `patchSet`
  is dropped with no error, and only a missing `project` raises. The model's `Event` always
  carries every field, so none of these events can be written.
- A failing `requests.post` is not caught. The model's calls cannot fail.
- A line that fails to parse as JSON does not skip just that line. It ends the whole SSH session.
  The producer and its `json.loads` are not part of the model.

## Model

| member | source | states |
|---|---|---|
| `Text.NatToString` | gerrit.py:148-153 | a change or patchset number is rendered as a non-empty run of decimal digits with no leading zero, as `str.format` renders an `int` |
| `Text.DigitsValueOfNatToString` | gerrit.py:150-151 | reading the rendered digits back gives the number: the rendering loses nothing |
| `Text.NatToStringOfDigitsValue` | gerrit.py:150-151 | every canonical digit run is the rendering of the number it denotes (the other direction of the round trip) |
| `Template.Format` | gerrit.py:148-153 | positional `str.format`: the result starts with the template's first literal piece and ends with its last one |
| `Template.FormatFourFields` | gerrit.py:148-153 | on a template with four placeholders, the four arguments land in order, each between its surrounding literal pieces |
| `Template.BuildUrl` | gerrit.py:136-153 | `test_jenkins_url.format(...)`: `Format` of the five literal pieces `Pieces` of the line-136 template with job, change, patchset and token. Its meaning is stated by `BuildUrlEnds`, `BuildUrlFields` and `ParseBuildUrl` |
| `Template.BuildUrlEnds` | gerrit.py:136 | every trigger URL starts with `https://jenkins.harryyoud.co.uk/job/` and ends with `&SILENT=false` |
| `Template.BuildUrlFields` | gerrit.py:136 | the URL is the template with job name, change number, patchset number and status token filled in that order |
| `Template.ParseBuildUrl` | gerrit.py:148-153 | reading back the URL of a request with token PRIVATE or NEW gives exactly that request |
| `Template.BuildParsedUrl` | gerrit.py:148-153 | any URL that reads back as a request is the URL built from it, and its token is PRIVATE or NEW |
| `Template.BuildUrlInjective` | gerrit.py:148-153 | two different requests never produce the same URL |
| `Dispatch.StatusToken` | gerrit.py:143-152 | the token is PRIVATE exactly when the `private` key is present and true, and NEW when it is absent or false |
| `Dispatch.CallUrl` | gerrit.py:148-153 | the URL sent for a mapped event: `BuildUrl` of `test_jobs[project]`, the change number, the patchset number and the token. `DispatchReadsBack` states what it reads back as |
| `Dispatch.DispatchEvent` | gerrit.py:142-155 | an event produces a call if and only if its project is a key of the job map |
| `Dispatch.DispatchReadsBack` | gerrit.py:148-153 | the call for a mapped event reads back as the mapped job, the change number, the patchset number and the visibility token |
| `Dispatch.DispatchIgnoresStatus` | gerrit.py:143-152 | the change's own `status` never influences what is sent |
| `Dispatch.DispatchAll` | gerrit.py:139-155 | handling a queue sends at most one call per event |
| `Dispatch.DispatchAllIsMatchingCalls` | gerrit.py:139-155 | handling a queue sends exactly one call per event of a mapped project, and in queue order |
| `Dispatch.Matching` | gerrit.py:142 | the filter keeps at most as many events as the queue holds, each taken from the queue and each of a mapped project |
| `Dispatch.MatchingCount` | gerrit.py:142 | the filter keeps exactly as many events as the queue has positions holding a mapped project |
| `Dispatch.DispatchAllConcat` | gerrit.py:139-155 | handling two batches one after the other sends what handling them as one queue sends |
| `Dispatch.NoCallsForUnmappedProjects` | gerrit.py:142 | a queue holding only events of unmapped projects causes no call |
| `Dispatch.DispatchAllCount` | gerrit.py:139-155 | the number of calls equals the number of queued events whose project is mapped |
| `Dispatch.CallPosition` | gerrit.py:139-155 | the call of a mapped event comes right after the calls of all the events queued before it |
| `Dispatch.CallsInQueueOrder` | gerrit.py:139-155 | when one event is queued before another, it has strictly fewer calls ahead of it than the later one |
| `Dispatch.ExampleEventCall` | gerrit.py:83-153 | the source's example event (LineageOS/lineage_wiki, change 212887, patchset 3, private) yields exactly the one URL `.../job/lineage-wiki-preview/buildWithParameters?token=TOKEN_GOES_HERE&CHANGE=212887&PATCHSET=3&STATUS=PRIVATE&SILENT=false` |
| `Dispatch.PublicChangeCall` | gerrit.py:137-153 | a public (`private: false`) change 500, patchset 2 of LineageOS/www yields exactly one call, to `.../job/lineage-www-preview/...&CHANGE=500&PATCHSET=2&STATUS=NEW&SILENT=false` |
| `Dispatch.UnmappedProjectNoCall` | gerrit.py:142 | the same change under the unmapped project Other/repo yields no call |
| `Dispatch.TestJobsRouting` | gerrit.py:137-142 | with the static `test_jobs` map (`TestJobs`), an event causes a call exactly when its project is LineageOS/lineage_wiki, LineageOS/www or LineageOS/hudson, and each goes to its own job |
| `Dispatch.Dispatcher.constructor` | gerrit.py:14 | the hand-off queue, the outbox and the record of received events start empty, the invariant `Consistent` holds, and the job map is fixed for the dispatcher's lifetime |
| `Dispatch.Dispatcher.Put` | gerrit.py:48 | the producer's hand-off appends the event at the tail of the queue and to the received events, leaves the outbox alone, and keeps `Consistent` |
| `Dispatch.Dispatcher.Get` | gerrit.py:140 | taking an event returns the head of the queue, removes exactly that head, and leaves the outbox and the received events alone |
| `Dispatch.Dispatcher.Step` | gerrit.py:140-155 | one turn of the loop removes the head of the queue and appends to the outbox that event's call, if any, and keeps `Consistent`; the job map cannot change |
| `Dispatch.Dispatcher.RunAll` | gerrit.py:139-157 | draining the queue empties it and appends to the outbox exactly `DispatchAll` of the queue it found; from a `Consistent` state the outbox is then `DispatchAll` of every event ever received |
| `Dispatch.HandOff` | gerrit.py:14 | events put through the queue come out in the order they were put in |

## Left out

- The `GerritStream` thread (gerrit.py:35-53) is left out: the SSH connect, the keepalive, `exec_command`, `client.close()` and the `time.sleep(5)` retry loop. These are network I/O and threading. The producer is modelled only as `Dispatcher.Put`.
- `json.loads` (gerrit.py:48) is a foreign library and is left out. Events arrive already decoded. In the code a line that fails to parse ends the SSH session. The model has no such line.
- Well-formedness: `Event` always carries every field the loop reads, so events with missing fields cannot be written in the model. In the code a missing `project` raises and ends the main loop. A missing `change`, `patchSet` or `status` does the same for an event of a mapped project. For an unmapped project only `project` is read, so the event is dropped with no error.
- The event's `type` field is not modelled. The dispatch loop never reads it.
- `private`: modelled as an optional boolean. In the code any truthy JSON value would give PRIVATE. Gerrit only sends booleans there.
- Change and patchset numbers are `nat`. Negative numbers, which Gerrit never sends, are not modelled.
- The HTTP POST and its credentials (gerrit.py:155) are replaced by appending the URL to `outbox`. The response status code is not modelled. The code does not catch a failing POST, so there is no error recovery to model.
- Dispatch.Dispatcher.Get: the source's `queue.get()` blocks while the queue is empty. The model has `requires queue != []` instead, so the waiting itself is not modelled.
- Dispatch.Dispatcher.RunAll: the source loops forever with `while True`. `RunAll` drains the events queued when it starts and then returns. Events that arrive later are handled by calling it again.
- Thread safety of `queue.Queue` is not modelled. The queue is a plain sequence, and each `Put` or `Step` is one atomic update of it. Any interleaving of these updates is covered, because both keep `Dispatcher.Consistent`.
- Environment configuration and `sys.exit` (gerrit.py:20-32) are process I/O and are left out.
- Logging and `print` (gerrit.py:16-18, 144-146, 156-157) are side effects only and are left out.
- The `templates` dict (gerrit.py:60-75) is never referenced, so it is left out. The `example` dict (gerrit.py:83-133) is only used as the test vector `ExampleEvent`.
- The template text of gerrit.py:136 is written as its five literal pieces around the `{}` placeholders, not as one string. The expected URLs in `Dispatch.ExampleEventCall` and `Dispatch.PublicChangeCall` are written the same way, as the literal segments joined with `+`.
