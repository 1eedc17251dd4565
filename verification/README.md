# Chameleon moving-target gateway, modelled in Dafny

Chameleon protects a small HTTP service by moving its route surface. A **mutator** rewrites the
service's route template. Every route except `/` gets a random 6-character suffix on its path
and on its handler name, and the mutator records each original path with its mutated path in a
route map. A **gateway** holds that route map, the index of the active backend node and a
reputation score per client address. Every 25 seconds it re-runs the mutator and moves to the
next node. A request whose path is a key of the route map is forwarded to the active node under
the mutated path. Any other request is answered with a fake "root access granted" payload, and
the client's score goes up. A **node loader** lets a backend process pick up the newest generated
artifact, retrying a bounded number of times.

The project has six files:

- `wrappers.dfy` (module `Wrappers`): `Option` and `Result`.
- `mutator.dfy` (module `Mutator`): `generate_chaos_string`, the `ChaosTransformer` class with its
  route map and its `visit_FunctionDef` loop, and `run_mutation`. Handlers are structured records:
  a name plus decorators, where a decorator is either a call with an optional callee attribute
  and positional arguments, or something else. The randomness is an oracle. The model is given
  the alphabet indices that `secrets.choice` picked, and the suffixes in the order the
  transformer asks for them.
- `template.dfy` (module `Template`): the sample template's four routes, and the generation
  that turns them into the shape of the checked-in `active_server.py`.
- `proxy.dfy` (module `Proxy`): the gateway's three globals as fields of the class
  `Proxy.Gateway`, which has `start_engine`, one rotation step, the rotation loop and the request
  handler. It also has the pure pieces: the routing decision, the reply, the reputation update
  and the header filter.
- `scenarios.dfy` (module `Scenarios`): the gateway's routing decision over the sample
  service's route map after one generation.
- `loader.dfy` (module `Loader`): `load_active_app` as a bounded loop over per-attempt outcomes.

Some inputs are outside the model. Whether run_mutation returned a map or raised, the map
read back from the state file, and the upstream node's answer are all parameters.

Some behaviours of the code are worth stating plainly:

- The gateway looks up the path the client asked for among the route map's **original** paths.
  So `/admin/login` is forwarded to `<node>/admin/login_<suffix>`, and a request for
  `/admin/login_<suffix>` is a miss (`Scenarios.TemplateOriginalPathHits`,
  `Scenarios.TemplateMutatedPathMisses`).
- No route can be exempted from mutation except the literal `"/"` (core/mutator.py:37).
- A missing template makes run_mutation return `{}`. The rotation step then replaces the live
  route map with `{}` rather than keeping the previous one (`Proxy.LatestReturnedWins`).
- Suffixes are not de-duplicated. Writes are plain overwrites, not atomic.
- A handler with two route decorators on the same path gets both rewritten, but the route map
  keeps only the second mutated path (`Template.TwoRoutesSamePath`).

## Model

| member | source | states |
|---|---|---|
| Mutator.GenerateChaosString | core/mutator.py:19-21 | the result has exactly `length` characters; character i is the alphabet character the i-th choice picked, so every character is a lower-case letter or a digit |
| Mutator.AlphabetAt | core/mutator.py:20 | character k of the alphabet is the k-th lower-case letter for k < 26 and the (k-26)-th digit after that |
| Mutator.AlphabetChars | core/mutator.py:20 | `ascii_lowercase + digits` has 36 characters, each a lower-case letter or a digit |
| Mutator.AlphabetIsChaosChars | core/mutator.py:20 | a character is in the alphabet exactly when it is `a`-`z` or `0`-`9` |
| Mutator.ChaosStringSurjective | core/mutator.py:19-21 | every string of the right length over the alphabet is produced by some sequence of choices |
| Mutator.ChaosStringInjective | core/mutator.py:19-21 | different sequences of choices give different strings, because the alphabet has no repeated character |
| Mutator.RoutePath | core/mutator.py:31-35 | a decorator declares a route path exactly when it is a call on an attribute named get/post/put/delete whose first argument is a constant, and the path is that constant |
| Mutator.WithPath | core/mutator.py:47 | rewriting the first argument makes the decorator declare the new path and keeps the verb and the other arguments |
| Mutator.Suffixed | core/mutator.py:42-43 | the f-string result is one character longer than the original and the suffix together (that it is the original, then "_", then the suffix is proved by `Mutator.SuffixedIsMutation`) |
| Mutator.SuffixedIsMutation | core/mutator.py:41-43 | `p + "_" + h` with a chaos suffix h starts with p, has "_" next, ends with h, is 7 characters longer than p, and differs from p |
| Mutator.VisitFrom | core/mutator.py:27-50 | the visit loop takes at most one suffix per remaining decorator and keeps the number of decorators |
| Mutator.TransformSpec | core/mutator.py:60-61 | visiting the module keeps one handler per handler and takes no more suffixes than there are decorators |
| Mutator.NoDecoratorsUnchanged | core/mutator.py:28-29 | a handler without decorators comes back unchanged, the map is untouched and no suffix is used |
| Mutator.NonRouteDecoratorsSkipped | core/mutator.py:31-34 | decorators that declare no route change neither the node, nor the map, nor the suffixes used |
| Mutator.RootRouteUnchanged | core/mutator.py:37-39 | when the first route decorator declares "/", the map records "/" -> "/" and the handler comes back exactly as it was, using no suffix |
| Mutator.SingleRouteMutated | core/mutator.py:41-48 | for one non-root route p and the next suffix h, the map becomes `m[p := p_h]`, overwriting any earlier entry; the decorator now declares exactly `map[p]`; the handler is renamed `name_h` with the same h; other decorators are untouched; one suffix is used |
| Mutator.SingleRouteRecorded | core/mutator.py:41-45 | for one non-root route p, the map entry for p becomes p_h with the next suffix h, and exactly one suffix is used |
| Mutator.SingleRouteShape | core/mutator.py:41-45 | the recorded mutated path begins with p, is 7 characters longer and is not p |
| Mutator.VisitFromWellFormed | core/mutator.py:37-45 | after any visit every map entry is either "/" -> "/" or a key mapped to a mutation of itself |
| Mutator.VisitFromKeys | core/mutator.py:35-45 | a visit keeps every key, and every entry it adds or changes belongs to a path some decorator of the node declares |
| Mutator.TransformWellFormed | core/mutator.py:60-61 | the route map after the whole module is still identity on "/" and mutation on every other key |
| Mutator.TransformTwo | core/mutator.py:60-61 | a module of two handlers is visited in order, the second continuing from the first's route map and suffixes |
| Mutator.LaterRouteOverwrites | core/mutator.py:41-45 | when two handlers declare the same path, only the second one's mutated path is left; earlier entries are not protected and suffixes are not checked for reuse |
| Mutator.ChaosTransformer.constructor | core/mutator.py:24-25 | a new transformer has an empty route map |
| Mutator.ChaosTransformer.VisitFunctionDef | core/mutator.py:27-50 | the loop over the decorator list, with its early return on "/", leaves the node, the route map and the suffixes used as the visit specification says |
| Mutator.ChaosTransformer.VisitModule | core/mutator.py:60-61 | visiting every top-level handler in order updates the route map as the module specification says and hands each handler the suffixes after the previous ones |
| Mutator.RunMutation | core/mutator.py:52-91 | a missing template gives `{}` and writes nothing; otherwise the returned map is the transformer's route map, the same map is dumped as state next to the rewritten artifact, and every entry is "/" -> "/" or a mutation |
| Template.MutateOne | target_app/template.py:7-17 | a template handler with one non-root route gets the suffixed path and name and one map entry |
| Template.TemplateGeneration | target_app/template.py:7-22 | one generation over the sample template renames the three sensitive routes with the suffixes in order, leaves `home` at "/", and the map pairs each original path with the path its handler now declares |
| Template.TwoRoutesSamePath | core/mutator.py:31-48 | a handler `f` with `get("/a")` and `post("/a")` becomes `f_h1_h2` with decorators `/a_h1` and `/a_h2`, and the map holds only `/a -> /a_h2`, so the first decorator's path is not the recorded one |
| Proxy.OriginalPath | core/proxy.py:100 | the path looked up is "/" followed by the requested path name |
| Proxy.ClientIp | core/proxy.py:102 | the client address is the request's host when it is present and non-empty, and 127.0.0.1 otherwise |
| Proxy.Score | core/proxy.py:104 | a client never seen has score 0, a known client its recorded score; a positive score means the client is known |
| Proxy.Penalize | core/proxy.py:140 | after a miss, the client's score is its old score (or 0) plus 1 and every other client's score is unchanged |
| Proxy.Decide | core/proxy.py:112-114 | a request hits exactly when its path is a key of the map, and the target URL is the node's URL followed by the mapped path |
| Proxy.Reply | core/proxy.py:130-137 | a forward that got an answer returns the upstream status and content unchanged; a failed one returns 503 with `{"error": "Node Sync Error"}` |
| Proxy.Lower | core/proxy.py:121 | lower-casing keeps the length and lower-cases each character |
| Proxy.FilterHeaders | core/proxy.py:121 | no forwarded header is Host or Content-Length in any spelling (every forwarded name lower-cases to neither) |
| Proxy.FilterHeadersKeys | core/proxy.py:121 | a header name is forwarded exactly when it is forwardable and some request header has it |
| Proxy.FilterHeadersValue | core/proxy.py:121 | a forwarded header has the value of its last occurrence in the request |
| Proxy.RotatedIndex | core/proxy.py:93 | zero steps leave the index where it was; after one or more steps it names a configured node |
| Proxy.RotationIsModular | core/proxy.py:93 | after n rotation steps the node index is `(start + n) mod 2` and stays below 2; from 0 it is `n mod 2` |
| Proxy.MappingAfter | core/proxy.py:86-88 | the route map after the rotations is either the one held before or a map some cycle returned |
| Proxy.AllRaisedKeepsMapping | core/proxy.py:86-91 | when every cycle's mutation raised, the route map is the one held before |
| Proxy.LatestReturnedWins | core/proxy.py:86-88 | the route map after the rotations is the one the latest returning cycle produced, even an empty one |
| Proxy.Gateway.constructor | core/proxy.py:36-38 | the gateway starts with an empty map, node index 0 and no scores |
| Proxy.Gateway.ActiveNode | core/proxy.py:101 | the active node is one of the configured nodes |
| Proxy.Gateway.StartEngine | core/proxy.py:66-78 | the stored state if non-empty; otherwise the mutator's returned map; a raising mutator leaves the empty stored state; index and scores unchanged |
| Proxy.Gateway.RotateStep | core/proxy.py:84-93 | the node index becomes `(old + 1) mod 2` whether or not the mutation raised; a returned map replaces the old one whole, a raise keeps it; scores unchanged |
| Proxy.Gateway.MutationLoop | core/proxy.py:82-95 | after N cycles the index is the N-step rotation of the old one and the map is the latest returned one; scores unchanged |
| Proxy.Gateway.HandleRequest | core/proxy.py:97-142 | an empty map is first reloaded from the stored state; the jitter delay happens exactly when the client's score was positive; a hit forwards the method to the active node's URL plus the mapped path with the filtered headers, returns the reply and leaves the scores alone; a miss forwards nothing, returns the deception payload with 200 after the fixed delay, and raises that client's score by exactly 1 |
| Proxy.HitTargetsMutatedRoute | core/proxy.py:112-114 | with a map the mutator produced, a hit on "/" targets the node's "/", and a hit on any other path p targets the node's p followed by "_" and a chaos suffix, never p itself |
| Scenarios.TemplateOriginalPathHits | core/proxy.py:112-114 | after the sample generation, a request for /admin/login on ALPHA is forwarded to http://127.0.0.1:8001/admin/login_7zgdas |
| Scenarios.TemplateMutatedPathMisses | core/proxy.py:139-142 | a request for the mutated path /admin/login_7zgdas is a miss |
| Scenarios.TemplateRootHits | core/proxy.py:112-114 | "/" stays reachable under its own name on node BETA |
| Loader.AttemptError | dynamic_server.py:13-20 | a missing artifact fails with FileNotFoundError, a module without `app` with AttributeError, and an import that raised an `Exception` subclass (RuntimeError included) fails with that same exception; no caught failure ends with the loop's own closing RuntimeError |
| Loader.LoadActiveApp | dynamic_server.py:10-27 | at most max_retries attempts, with every attempt before the last one made a caught failure; one sleep follows each caught failure except the last; an attempt that loads an app returns it at once; an import raising outside `Exception` (SystemExit, KeyboardInterrupt) propagates at once with no sleep and no further attempt; a caught failure ends the call only as the max_retries-th attempt, re-raising its own exception unchanged; the loop's own RuntimeError is raised only when no attempt runs, that is when max_retries <= 0 |
| Loader.ImportExitEscapes | dynamic_server.py:17-21 | an artifact calling sys.exit() at import ends the call after one attempt with SystemExit and no sleep, although a second attempt would have loaded an app |

## Left out

- HTTP serving and forwarding (FastAPI, uvicorn, the httpx client and its 3-retry transport, the 5-second timeout, the request body and query parameters, parsing the upstream body as JSON or as text) are not modelled. A forward is an abstract outcome: an upstream status with opaque content, or a failure.
- The asyncio event loop, the background rotation task and the interleaving of requests with rotations are not modelled. The rotation loop runs for a given number of cycles instead of forever.
- Sleeps and their durations (25 s between rotations, the `randbelow(10)/10` jitter, the fixed 0.3 s trap delay, the loader's 0.5 s backoff) are not modelled. Only whether each delay happens is recorded.
- Python's `ast` parse, unparse and `fix_missing_locations` are not modelled. Handlers are structured records. Only top-level `def` handlers are modelled; handlers that are methods of a class are not.
- `async def` handlers are left out of the handler records. The transformer has no visit for them, so in the source they keep their path and name and get no route map entry, and a request for their path is a miss unless another handler declares the same path.
- Mutator.ChaosTransformer.VisitFunctionDef: returns the rewritten node instead of updating the AST node in place, so aliasing of AST nodes is not captured (the parsed template shares none).
- Mutator.RoutePath: a constant first argument is a string. Non-string constants and other AST nodes with a `value` field are treated as not constant.
- File I/O is not modelled: reading the template, writing the artifact to both output paths and writing the state file. A missing template is `None`. A write failure, which the source only logs, is not modelled.
- The state file read by `load_state_from_tmp` is an input map. A missing, unreadable or non-dict file gives `{}`. JSON values that are not strings are not modelled.
- The failure of run_mutation (for example a template that does not parse) is an input to the gateway's rotation and startup, not derived from the mutator model.
- `secrets` randomness is an oracle of choices and suffixes. The collision rate of suffixes is a statistical property and is not modelled.
- Proxy.Lower: lower-cases ASCII letters only, where Python's `str.lower` is Unicode-aware.
- A request with no client (`request.client` is None, which raises in the source) is not modelled.
- Proxy.Gateway.RotateStep: `Raised` stands for an `Exception` subclass only. A mutation raising outside `Exception` (SystemExit, KeyboardInterrupt) escapes `except Exception`, ends the rotation task and is not modelled; the same holds for `Proxy.Gateway.StartEngine`, and for `Proxy.Reply`, whose `Failed` outcome stands for an `Exception` subclass, so a request whose forward raised outside `Exception` fails instead of answering 503.
- `load_active_app` runs the artifact through `importlib`. That is an abstract per-attempt outcome, and the loaded app is opaque.
- The console logging (colorama, prints, tracebacks), the demo attacker script and the module-level `app = load_active_app()` call are not modelled.
