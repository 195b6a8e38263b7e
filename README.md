# IIIF Change Discovery activity stream reader, modelled in Dafny

This project models `ordered_collection.py`. That file reads an IIIF Change
Discovery API 1.0 activity stream. The stream is an Activity Streams 2.0
`OrderedCollection` whose `OrderedCollectionPage`s are linked backwards through
`prev`. Each page holds activities of seven kinds: the six Create, Update, Delete,
Move, Add and Remove from section 3.1 of the W3C Activity Vocabulary, plus
the IIIF-specific `Refresh`.

The model has three modules:

- `Json` (`json.dfy`) holds the parsed JSON a decoder receives and Python's
  truthiness rule. `Attr` gives the value of an attribute that defaults to
  None: the value stored under the key, or null when the key is absent.
- `Records` (`records.dfy`) holds the three type-tag enumerations and the
  decoding constructors of `Resource`, `Activity`, `OrderedCollectionPage`
  and `OrderedCollection`. Each decoder is a total function returning
  `Result<T>`. It checks the same keys in the same order as the Python
  constructor, so the first statement that would raise decides the `Error`.
  Each decoder has an encoder as its partner, with a round-trip lemma.
  `Activities` is the page's `activities()` iterator.
- `Traversal` (`traversal.dfy`) models the `pages_rev` generator.
  - The network is a `map<string, Json>` from URL to the document served
    there. A URL that is not a key stands for a failed request or a body
    that does not parse.
  - `Position` is where the generator is suspended. `Advance` is one call of
    `next()` and `Run` is several calls.
  - The class `PagesRev` keeps the position in a field, and its `Next` method
    steps it in place. A ghost field records every URL handed to `urlopen`.
  - The lemmas prove the traversal's order, termination and fail-fast
    behaviour over chains of pages. They also prove that a self-linked page
    makes the generator run forever.

The model follows the code as written:

- A Resource must have an `id` key. Only its value may be null.
- `startIndex` has no range check, and `partOf` and `id` have no type checks:
  they are copied as whatever JSON they hold.
- `prev["id"]` is used as the next URL without any check. A falsy value
  (null, `""`, `0`, `false`, `[]`, `{}`) ends the walk. A truthy value that
  is not a string fails the step with `NotAUrl`.
- The `prev` link is read before the page is decoded. So a `prev` without an
  `id` is reported even when the page would also fail to decode.
- `first` has no default, so when the key is absent the attribute is never
  set. It is `None` in the model. `totalItems` defaults to null.
- `last["id"]` is read when the generator first runs, not when it is created.
  So a bad `last` link fails the first `next()`, and no request is made.

## Model

| member | source | states |
|---|---|---|
| `Records.ActivityTypeName` | ordered_collection.py:14-21 | every kind's value is one of the seven names |
| `Records.ParseActivityType` | ordered_collection.py:14-21 | the lookup succeeds exactly for a string equal to one of the seven names, and the kind found has that string as its value |
| `Records.ActivityTypeRoundTrip` | ordered_collection.py:14-21 | each kind is found again from its own value |
| `Records.ParsePageType` | ordered_collection.py:11-12 | the page type lookup succeeds exactly for "OrderedCollectionPage" |
| `Records.ParseCollectionType` | ordered_collection.py:8-9 | the collection type lookup succeeds exactly for "OrderedCollection" |
| `Records.DecodeResource` | ordered_collection.py:31-39 | succeeds iff the input is an object with `id` and `type` (either may be null); reports NotAnObject, then the first missing key; copies `id`/`type`; `seeAlso`, `canonical`, `provider` are the stored value or None |
| `Records.ResourceRoundTrip` | ordered_collection.py:31-39 | decoding the encoding of any Resource gives it back, so no field is altered |
| `Records.ResourceReadsOnlyItsKeys` | ordered_collection.py:31-39 | two objects that agree on the five Resource keys decode alike: other keys are ignored |
| `Records.DecodeActivity` | ordered_collection.py:58-71 | succeeds iff `id`, a `type` naming one of the seven kinds, and an `object` that decodes as a Resource are present; otherwise the error is the first failing step's (MissingField, UnknownActivityKind carrying the tag, or the Resource's own error); on success the kind's name is the tag, the Resource is the decoded `object`, and the five optional fields, timestamps included, are the raw stored values or None |
| `Records.ActivityRoundTrip` | ordered_collection.py:58-71 | decoding the encoding of any Activity gives it back |
| `Records.ActivityReadsOnlyItsKeys` | ordered_collection.py:58-71 | keys other than the eight Activity keys play no part |
| `Records.Iterate` | ordered_collection.py:92 | iterating an array gives its elements in order |
| `Records.DecodeItems` | ordered_collection.py:92 | all elements decode or the whole list fails; on success the same length and `items[i]` is the decoding of element `i`; on failure the error is that of the first element that fails, all earlier ones having decoded |
| `Records.DecodePage` | ordered_collection.py:83-92 | succeeds iff the input is an object with `id`, `type` equal to "OrderedCollectionPage", `startIndex`, `partOf` and `orderedItems` whose items all decode; otherwise NotAnObject, then the first missing key in the order `id`, `type`, `startIndex`, `partOf`, `orderedItems` as MissingField, a wrong tag as BadTypeTag, or the error of the first item that fails; `startIndex` and `partOf` are copied unchecked; `prev`/`next` are the stored value (null included) or None; the items are the decoded `orderedItems` |
| `Records.PageItemsFollowOrderedItems` | ordered_collection.py:92 | for an `orderedItems` array, a decoded page has one item per element in the same order, and one bad element fails the page |
| `Records.ItemsRoundTrip` | ordered_collection.py:92 | decoding the encoded items of any list gives the list back |
| `Records.PageRoundTrip` | ordered_collection.py:83-92 | decoding the encoding of any page gives it back, whatever its `startIndex` |
| `Records.PageReadsOnlyItsKeys` | ordered_collection.py:83-92 | keys other than the seven page keys play no part |
| `Records.Activities` | ordered_collection.py:94-96 | yields exactly the stored items, in stored order |
| `Records.DecodeCollection` | ordered_collection.py:107-116 | succeeds iff `id`, `@context`, `last` and a `type` equal to "OrderedCollection" are present; otherwise NotAnObject, then the first missing key in the order `id`, `@context`, `last`, `type` as MissingField, or a wrong tag as BadTypeTag; `first` is set iff its key is present; `totalItems` is the stored value or None |
| `Records.CollectionRoundTrip` | ordered_collection.py:107-116 | decoding the encoding of any collection gives it back, with `first` set or unset as it was |
| `Records.CollectionReadsOnlyItsKeys` | ordered_collection.py:107-116 | keys other than the six collection keys play no part |
| `Traversal.Advance` | ordered_collection.py:118-127 | one `next()` on the current target (`last["id"]` at the first step, the stored `prev` id after): a finished generator ends with no request; a bad `last` link fails with no request; a falsy target ends with no request; a truthy non-string fails with NotAUrl and no request; a string target is the one URL requested, and an unserved URL gives TransportFailure, a `prev` without `id` or an undecodable page gives that error, and a good page is yielded decoded with its `prev` id as the next target; every step without a page leaves the generator finished |
| `Traversal.FinishedStaysFinished` | ordered_collection.py:120-127 | after the loop has exited or raised, every further step ends without a request |
| `Traversal.StartAtLast` | ordered_collection.py:119 | the first step targets `last["id"]`, so starting is the same as resuming at that target |
| `Traversal.BadLastFailsFirst` | ordered_collection.py:119 | a `last` link that is not an object or has no `id` fails the first step with no request, and the generator then only ends |
| `Traversal.RunFromGoodPage` | ordered_collection.py:121-127 | from a good page, one step requests it, yields it decoded and moves on to its `prev` id |
| `Traversal.RunAlongChain` | ordered_collection.py:120-127 | along a chain of good pages, the pages are yielded in chain order, with exactly one request per page to the chain's URLs, and the generator then stands at the chain's tail link |
| `Traversal.PagesRevWalksChain` | ordered_collection.py:118-127 | on a chain (possibly empty) entered by `last` and ending in a falsy link, the generator yields exactly the chain's pages from `last` back to the oldest, then ends for good, and requests exactly the chain's URLs |
| `Traversal.StopFinishes` | ordered_collection.py:120-127 | a step that ends or fails is the last one that yields or requests anything |
| `Traversal.PagesRevFailsFast` | ordered_collection.py:120-127 | when the chain leads to a link whose visit fails, the earlier pages are yielded in order, the failure comes next, and no request is made after the failing one |
| `Traversal.VisitFails` | ordered_collection.py:120-126 | a loop pass fails exactly when its target is truthy and is not a string, is not served, names a page whose `prev` has no `id`, or names a page that does not decode |
| `Traversal.PagesRevFailsAtMissingPage` | ordered_collection.py:120-122 | when the chain leads to a URL that is not served, the earlier pages are yielded, then TransportFailure after one request for that URL, then nothing more |
| `Traversal.PagesRevFailsAtBadPage` | ordered_collection.py:120-126 | when the chain leads to a served page that does not decode, the earlier pages are yielded, then that page's decoding error after one request for it, then nothing more |
| `Traversal.SelfLoopNeverEnds` | ordered_collection.py:120-126 | with no cycle guard, a page whose `prev` names itself is fetched and yielded at every step, for any number of steps |
| `Traversal.PagesRev.constructor` | ordered_collection.py:118 | creating the generator runs none of its body: nothing is read or requested yet |
| `Traversal.PagesRev.Next` | ordered_collection.py:118-127 | one `next()` in place: the result, the new position and the URLs requested are those of `Advance` from the old position |

## Left out

- `json.loads`, `json.load` and `urllib.request.urlopen` are not modelled. The decoders take parsed JSON. The network is a map, and a failed request and an unparsable body are one error, `TransportFailure`.
- JSON floating-point numbers are not modelled. The `Json` datatype has integers only.
- Python's exception types and messages are not modelled. Every TypeError from subscripting a non-dict is `NotAnObject`, and the other errors are named by cause.
- Iterating a non-empty dict given as `orderedItems` yields its keys. Every key is a string, so it fails as an Activity. The model reports that failure but not the dict's key order.
- `ActorType` is not modelled, because no decoder uses it.
- The `datetime` annotations are not modelled. Timestamps are never parsed and are kept as raw values.
- The dataclass machinery (`__eq__`, `__repr__`) is not modelled. Neither is the fact that a collection without `first` raises when that attribute is read.
- `ordered_collection.py` imports only `urllib`, and `urllib.request` must already be loaded by the caller. The model assumes it is.
- Generator laziness is modelled only as single steps of `next()`. `close()`, `throw()` and concurrency are not modelled.
- main.py, the entry point that fetches one live URL and prints every activity, is not part of this model.
- `Traversal.SelfLoopNeverEnds` covers a page that links to itself. Longer `prev` cycles also never end, but no lemma proves it. `PagesRevWalksChain` proves termination only for a chain that reaches a falsy link.
