# URL shortener core in Dafny

This project models the core of a small in-memory URL shortener (api/api.go). The
core has three parts:

- the short-code generator `genCode`, which builds an 8-character code over a
  fixed 62-character alphabet;
- the create handler `handlePost`: it validates the JSON body and the URL,
  generates a code, stores `code -> url` in the shared map and replies 201 with
  the code in a `{error, data}` envelope;
- the resolve handler `handleGet`: it looks the code up and replies with a 308
  redirect to the stored URL, or with a 404 and the text "url não encontrada".

Files:

- `codegen.dfy` (module `CodeGen`): the alphabet, the draw sequence that stands
  in for `rand.IntN`, the specification function `CodeOf`, its inverse
  `DrawsOf`, and `GenCode`, a method that fills an 8-element array in a loop the
  way the source fills its byte buffer.
- `api.dfy` (module `Api`): status codes and messages, the `Response` envelope,
  the `Reply` values a handler writes, and the class `Store`. The class holds the
  shared map as a `map<string, string>` field `db`. `Create` mutates it in place.
  `Resolve` is a function that reads it.

Inputs that come from outside the core are parameters:

- The random source is a sequence of 8 draws, each in `[0, 62)` as `rand.IntN(62)`
  promises. Different draw sequences give different codes (`CodeOfInjective`).
  Every code is reachable from some draws (`CodeOfDrawsOf`).
- JSON decoding and `url.Parse` are oracles. A `PostRequest` carries whether
  decoding succeeded, the `URL` field decoding left in the body, and whether
  `url.Parse` accepted it.
- What a handler writes to its `http.ResponseWriter` is returned as a list of
  `Reply` values, in the order written. A `Reply` records the arguments of
  `sendJSON`, `http.Error` or `http.Redirect`.

`handlePost` is modelled as the code stands. Neither validation branch returns,
so a failed check writes its error reply and execution goes on. The handler
still generates a code, stores the URL field and writes the 201 reply.
`Store.Create` returns that whole list of replies. `Store.CreateChecked` is the
early-return variant: one reply per request, and a request that fails a check
leaves the store unchanged. It only adds the returns; its checks are the code's
own. It is a separate method and is reported under "## Findings".

Behaviour of the code that a reader might not expect from its messages and
status codes, all modelled as the code has it:

- The 404 text is "url não encontrada" (Portuguese for "url not found").
- The store is not insert-only. A create whose code is already a key overwrites
  that entry without any check (`Store.Create`, `CollisionOverwrites`).
- Validation failures do not end the request (see "## Findings").
- A body that decodes but has no `url` field (`{}` or `{"url":null}`) is not a
  decoding error: the URL field stays empty, `url.Parse` accepts the empty
  string, and the handler stores the empty URL with a single 201 reply
  (`MissingUrlStored`, `MissingUrlIsStored`). `CreateChecked` does the same.

## Model

| member | source | states |
|---|---|---|
| `CodeGen.AlphabetIsAlnum` | api/api.go:86 | the alphabet constant has 62 characters, no two alike, and a character is in it exactly when it is in a-z, A-Z or 0-9 |
| `CodeGen.CodeOf` | api/api.go:85-95 | the code selected by 8 draws in `[0, 62)` has length 8 and every character is in the alphabet |
| `CodeGen.GenCode` | api/api.go:85-95 | the loop that fills the 8-element buffer returns exactly `CodeOf(draws)`: length 8, and position k holds the alphabet character at draw k |
| `CodeGen.DrawsOf` | api/api.go:91 | every code maps back to 8 draws, each a valid alphabet index |
| `CodeGen.CodeOfDrawsOf` | api/api.go:85-95 | every 8-character string over the alphabet is produced by some draws: the generator's range is the whole code space |
| `CodeGen.DrawsOfCodeOf` | api/api.go:86-91 | the draws can be read back from the code, because the alphabet has no repeated character |
| `CodeGen.CodeOfInjective` | api/api.go:85-95 | two draw sequences give the same code if and only if they are equal |
| `CodeGen.CodeIsAlnum` | api/api.go:86-94 | every character of a generated code is an ASCII letter or digit |
| `Api.PostReplies` | api/api.go:54-66 | the replies `handlePost` writes: one, plus one for each failed check. The last is always 201 with the code as data. There is exactly one reply iff decoding and parsing both succeed. The 422 "invalid body" reply appears iff decoding fails, and comes first. The 400 "invalid url passed" reply appears iff parsing fails. Every earlier reply is a client error. Every envelope has exactly one of error and data |
| `Api.CheckedReply` | api/api.go:54-66 | the early-return handler's single reply: 201 iff both checks pass, otherwise the 422 or 400 error of the first failed check, with exactly one envelope field |
| `Api.InvalidBodyStillCreates` | api/api.go:54-56 | a body that fails to decode, with the empty URL left in it, gets 422 and then 201 |
| `Api.InvalidUrlStillCreates` | api/api.go:58-60 | a URL that fails to parse gets 400 and then 201 |
| `Api.MissingUrlStored` | api/api.go:54-66 | a body that decodes with an empty URL passes both checks: the handler as written and the early-return variant both reply with a single 201 |
| `Api.MissingUrlIsStored` | api/api.go:54-66 | on the store, a body without a `url` field gets one 201, and the new code then resolves to the empty URL |
| `Api.CheckedAgreesOnFirstReply` | api/api.go:54-66 | the early-return reply is the first reply the handler as written sends. The two write the same replies exactly when the request is valid |
| `Api.NotJsonBodyIsStored` | api/api.go:54-66 | on the store, a non-JSON body writes 422 then 201, and the new code then resolves to the empty URL |
| `Api.NonCodeNotFound` | api/api.go:74-79 | in a store holding only generated codes, a key that is not an 8-character alphabet string gets 404 "url não encontrada" |
| `Api.Store.constructor` | api/api.go:15-23 | the shared store starts from the empty map a freshly started process hands to `NewHandler`, so every key is a generated code |
| `Api.Store.Resolve` | api/api.go:70-83 | the reply is a redirect iff the code is a key. A hit is a 308 redirect whose target argument is exactly the stored URL. A miss is a 404 with "url não encontrada". It only reads the store |
| `Api.Store.Create` | api/api.go:51-68 | the code is `CodeOf(draws)`. The new store is the old one with `code` set to the URL field, whatever validation said and whether or not `code` was already a key. The replies are `PostReplies`. The store keeps "every key is a code". Afterwards `Resolve(code)` is a 308 redirect with exactly that URL as its target, and every other key resolves as before |
| `Api.Store.CreateChecked` | api/api.go:51-68 | the early-return variant. A request that passes both checks stores the URL under `CodeOf(draws)` and replies 201. A request that fails a check gets its one error reply and leaves the store unchanged |
| `Api.CollisionOverwrites` | api/api.go:62-63 | two creates with the same draws get the same code, and the code then resolves to the second URL: there is no collision check |
| `Api.CreateThenCreate` | api/api.go:62-63 | two creates with different draws get different codes, and each code resolves to its own URL |

## Left out

- Routing with chi, `chi.URLParam` and the Recoverer, RequestID and Logger middleware (api/api.go:15-26, 72): framework plumbing. The code to resolve is a parameter.
- JSON decoding and encoding: foreign library code. Decoding is an oracle in `PostRequest`. The envelope is kept as a value and is not serialised.
- The marshal-failure branch of `sendJSON` (api/api.go:39-41), which replies 500 "something went wrong": marshalling an envelope of strings cannot fail, so the model never takes it.
- The logged write error in `sendJSON` (api/api.go:45-47), `fmt.Println` (api/api.go:65) and the headers and body text that `http.Error` and `http.Redirect` produce: I/O. Each reply records the arguments of the call.
- What net/http does with a second status write on one request: response-writer behaviour, outside the core. The model records every reply the handler writes.
- How `http.Redirect` turns its target into a Location header: a target with no scheme and no host is resolved against the request path, so a stored `""` is sent as `/`. The model records the target argument, not the header.
- `Api.Store.constructor`: `NewHandler` (api/api.go:15) takes its map from its caller. The model starts from the empty map a freshly started process passes in; a map handed over already filled, for which `Valid()` need not hold, is not modelled.
- `url.Parse` grammar: foreign library code. It is a boolean oracle.
- `math/rand/v2`: replaced by the supplied draws. Uniformity and collision probability are not modelled.
- Concurrent access to the unsynchronised shared map: requests are sequential method calls.

## Findings

| source | as written | input that shows it | evidently intended | confidence | as-written member | corrected member |
|---|---|---|---|---|---|---|
| api/api.go:54-60 | the 422 and 400 branches write an error and fall through to code generation, the store insert and a 201 reply | body `not json`: decoding fails and leaves the URL empty. The empty URL parses, so the replies are 422 then 201, and the empty URL is stored under a new code | return after each error reply, so a request gets exactly one reply and one that fails a check changes nothing (the checks themselves unchanged: a missing `url` field still passes them) | high (reasoned from the code, not executed) | `Api.NotJsonBodyIsStored` | `Api.Store.CreateChecked` |
