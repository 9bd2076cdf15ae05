# Facter's Ruby bridge: cached path lookup and stdout guard

This project models the core of `lib/src/ruby/ruby.cc` in Facter, the host
fact-inventory tool, in Dafny and proves properties of the model.

The core has two parts.

**Path lookup.** `facter::ruby::lookup` walks a path of string segments into
a Ruby value: an array, a hash, nil, or anything else. It memoises what it
finds in the root value's child cache.

- The cache key is a left fold from the empty string (`PathKey.CacheKey`).
  Each segment adds `.` and the segment. A segment that holds a dot is put
  in double quotes. So `["a", "b.c"]` gives `.a."b.c"`, with a leading dot,
  and the empty path gives the empty key.
- A cache hit is returned without walking.
- On a miss, each segment is applied to the current value:
  - On an array, the segment is parsed the way `std::stol` does
    (module `Stol`). No integer, a negative index, an empty array or an index
    out of bounds each give not-found.
  - On a hash, the value under the String key is used. The Symbol key is
    tried only when that value is nil.
  - On any other value, the segment is skipped and the value is kept.
  - When the current value becomes nil, the lookup gives not-found.
- A successful walk stores its result under the key.

The meaning of the walk is the function `RubyValues.Navigate`. The loop
`RubyLookup.Traverse` is proved against it. `RubyLookup.Lookup` is proved
against `RubyLookup.LookupSpec`, which gives both the result and the new
cache.

The key is unambiguous only when no segment holds a double quote.
`PathKey.KeyRoundTrip` decodes the key of a quote-free path back into that
path, so such keys are injective. `PathKey.KeyCollision` shows two different
paths with quotes that share one key. As a result, the cache is proved
coherent with the walk only for quote-free paths
(`RubyLookup.LookupKeepsCoherent`, `RubyLookup.CoherentLookupIsWalk`).
`RubyLookup.CacheCollision` exhibits a hash on which a cached answer for one
path is returned for another.

**Stdout guard.** `RbStdoutGuard` saves Ruby's `$stdout`, points it at the
`$stderr` object, and puts the saved object back when the guard leaves scope.
`load_custom_facts` resolves custom facts inside the guard only when
`redirect_stdout` is set. Its two shorter overloads pass `false` for
`redirect_stdout`, and one of them also passes `false` for
`initialize_puppet`.

- The runtime's global variables are a `map<string, Val>` in the class
  `RubyBridge.Runtime`.
- Custom fact code is a sequence of `Action`s: assign a global, write a line
  with `puts`, or raise.
- `RubyBridge.Exec` gives the meaning of running that code. `Guarded` and
  `Load` give the meaning of running it under the guard and of the whole of
  `load_custom_facts`.

Two details of the code are worth noting:

- The fold starts from the empty string, so every non-empty key has a
  leading dot: `["a","b.c"]` gives `.a."b.c"`.
- The Symbol key is tried whenever the String lookup yields nil. That
  includes a String key stored with a nil value, not only a missing one.

## Model

| member | source | states |
|---|---|---|
| `Stol.ParseLong` | lib/src/ruby/ruby.cc:150 | any index `stol` accepts fits in a 64-bit `long` |
| `Stol.ParseDecimalPrefix` | lib/src/ruby/ruby.cc:147-154 | a numeral followed by a non-digit parses as that numeral ("1x" is 1); a numeral above `LongMax` is rejected, as `out_of_range` is caught |
| `Stol.ParseNegative` | lib/src/ruby/ruby.cc:150-158 | "-n" parses as -n down to `LongMin` and is rejected below it |
| `Stol.NoDigitNoNumber` | lib/src/ruby/ruby.cc:149-154 | a segment with no digit is rejected (`invalid_argument` is caught) |
| `Stol.NoLeadingInteger` | lib/src/ruby/ruby.cc:149-154 | after leading white space, a first character that is neither a digit nor a sign makes the segment rejected ("x1", "a.1"); so does a blank or empty segment |
| `Stol.SignWithoutDigit` | lib/src/ruby/ruby.cc:149-154 | a sign that is not directly followed by a digit makes the segment rejected ("+", "-x1") |
| `PathKey.CacheKey` | lib/src/ruby/ruby.cc:131-137 | the key is empty exactly for the empty path; otherwise it starts with a dot |
| `PathKey.KeyRoundTrip` | lib/src/ruby/ruby.cc:131-137 | the key of a path with no double quote in any segment decodes back to that path |
| `PathKey.KeyInjective` | lib/src/ruby/ruby.cc:131-137 | two quote-free paths with the same key are the same path |
| `PathKey.KeyExample` | lib/src/ruby/ruby.cc:131-137 | `["a", "b.c"]` gives `.a."b.c"` |
| `PathKey.KeyCollision` | lib/src/ruby/ruby.cc:131-137 | `["a.b"]` and `["\"a", "b\""]` are different paths with the same key |
| `RubyValues.Navigate` | lib/src/ruby/ruby.cc:146-187 | a walk over at least one segment never ends on nil |
| `RubyValues.NavigateAppend` | lib/src/ruby/ruby.cc:146-187 | walking `p + q` is walking `q` from where `p` ends, and fails where `p` fails |
| `RubyValues.ScalarAbsorbs` | lib/src/ruby/ruby.cc:181-183 | a value that is neither array, hash nor nil absorbs every remaining segment and is the result |
| `RubyValues.NilNotFound` | lib/src/ruby/ruby.cc:184-188 | from nil, any non-empty path gives not-found; the empty path gives nil itself |
| `RubyValues.ArrayIndex` | lib/src/ruby/ruby.cc:147-170 | a decimal index in bounds, with any non-digit tail, selects that element, and the walk goes on from it unless it is nil |
| `RubyValues.ArrayOutOfBounds` | lib/src/ruby/ruby.cc:159-168 | an index at or past the end gives not-found, for the empty array too |
| `RubyValues.ArrayNegative` | lib/src/ruby/ruby.cc:155-158 | a negative index gives not-found |
| `RubyValues.ArrayNoDigit` | lib/src/ruby/ruby.cc:147-154 | a segment with no digit gives not-found on an array |
| `RubyValues.ArrayNoLeadingInteger` | lib/src/ruby/ruby.cc:147-154 | on an array, a segment with no leading integer ("x1", "a.1") gives not-found |
| `RubyValues.ArraySignWithoutDigit` | lib/src/ruby/ruby.cc:147-154 | on an array, a segment whose sign no digit follows ("+", "-x1") gives not-found |
| `RubyValues.HashSegment` | lib/src/ruby/ruby.cc:171-180 | a non-nil value under the String key wins; otherwise the value under the Symbol key is used, and nil or absence gives not-found |
| `RubyValues.ArrayExample` | lib/src/ruby/ruby.cc:147-170 | on `[10, 20, 30]`, "1" gives 20 and "5" gives not-found |
| `RubyValues.SymbolExample` | lib/src/ruby/ruby.cc:171-180 | `"foo"` is found under a String key and, through the fallback, under a Symbol key |
| `RubyLookup.RubyValue.WrapChild` | lib/src/ruby/ruby.cc:188 | a new key gets the value; an existing child stays and is returned |
| `RubyLookup.Traverse` | lib/src/ruby/ruby.cc:143-187 | the loop returns exactly what `Navigate` gives for the root and the path |
| `RubyLookup.Lookup` | lib/src/ruby/ruby.cc:124-189 | a value that is not Ruby-backed gives not-found; otherwise the result and the new cache are those of `LookupSpec`, and a lookup of a quote-free path keeps a coherent cache coherent |
| `RubyLookup.EmptyCacheCoherent` | lib/src/ruby/ruby.cc:138-141 | the empty cache a root starts with agrees with the walk |
| `RubyLookup.LookupCacheEffect` | lib/src/ruby/ruby.cc:138-188 | a hit returns the cached child and leaves the cache alone; a failed walk adds nothing; a successful miss adds exactly one entry, under the path's key, and keeps every other entry |
| `RubyLookup.LookupTwice` | lib/src/ruby/ruby.cc:131-188 | a second lookup of the same path gives the same answer and leaves the cache as the first left it |
| `RubyLookup.LookupKeepsCoherent` | lib/src/ruby/ruby.cc:131-188 | after a lookup of a quote-free path, every cached entry for a quote-free path still holds what the walk gives |
| `RubyLookup.CoherentLookupIsWalk` | lib/src/ruby/ruby.cc:138-141 | on a coherent cache, a quote-free lookup answers what the walk answers |
| `RubyLookup.CacheCollision` | lib/src/ruby/ruby.cc:131-141 | on one concrete hash, the cached answer for `["a.b"]` is returned for `["\"a", "b\""]`, where the walk gives a different value |
| `RubyBridge.Exec` | lib/src/ruby/ruby.cc:104 | resolving custom facts only appends to the output written so far |
| `RubyBridge.ExecWritesToStdout` | lib/src/ruby/ruby.cc:104-106 | code that never assigns `$stdout` writes every line to the object `$stdout` named at the start |
| `RubyBridge.ExecKeeps` | lib/src/ruby/ruby.cc:104 | code that never assigns a global leaves that global as it was |
| `RubyBridge.GuardRestoresStdout` | lib/src/ruby/ruby.cc:48-51 | after the guarded resolution, `$stdout` is the object it was before, whether or not the code raised or reassigned it |
| `RubyBridge.GuardedOutputGoesToStderr` | lib/src/ruby/ruby.cc:41-46 | under the guard, code that assigns neither stream writes every line to the `$stderr` object, and `$stderr` is unchanged |
| `RubyBridge.ExecIgnoresStdout` | lib/src/ruby/ruby.cc:101-106 | for code that cannot read globals, what `$stdout` names does not change whether the code raises, what it writes, or the other globals it leaves |
| `RubyBridge.GuardOnlyRedirects` | lib/src/ruby/ruby.cc:101-107 | for code that cannot read globals, resolution with and without the guard raise alike, write the same texts and leave every global except `$stdout` alike, `$stderr` included |
| `RubyBridge.UnguardedOutputGoesToStdout` | lib/src/ruby/ruby.cc:105-106 | without redirection, code that never assigns `$stdout` writes to the original `$stdout` |
| `RubyBridge.Runtime.GvSet` | lib/src/ruby/ruby.cc:45 | `rb_gv_set` changes exactly one global |
| `RubyBridge.StdoutGuard.constructor` | lib/src/ruby/ruby.cc:41-46 | the guard saves the old `$stdout` and points `$stdout` at the `$stderr` object, changing nothing else |
| `RubyBridge.StdoutGuard.Exit` | lib/src/ruby/ruby.cc:48-51 | leaving the guard sets `$stdout` back to the saved object and changes nothing else |
| `RubyBridge.ResolveFacts` | lib/src/ruby/ruby.cc:104 | the runtime ends in the state `Exec` gives, and the method reports whether the code raised |
| `RubyBridge.LoadCustomFacts` | lib/src/ruby/ruby.cc:72-112 | the bootstrap runs only when `initialize_puppet` is set, and a raise in it is swallowed; resolution runs under the guard only when `redirect_stdout` is set; a raise in resolution is passed on after `$stdout` is restored |
| `RubyBridge.LoadCustomFactsPlain` | lib/src/ruby/ruby.cc:114-117 | the two-argument overload resolves without a bootstrap and without redirection |
| `RubyBridge.LoadCustomFactsPuppet` | lib/src/ruby/ruby.cc:119-122 | the three-argument overload resolves without redirection |
| `RubyBridge.Initialize` | lib/src/ruby/ruby.cc:56-70 | the result is true exactly when the runtime could start; a failure is caught, returns false and changes nothing; success records the stack-trace flag |

## Left out

- Logging (`LOG_DEBUG`, `LOG_WARNING`) has no effect on results and is not modelled.
- Ruby values other than arrays, hashes and nil are all `Scalar(int)`. `lookup` treats every such value alike.
- `RubyValues.HashLookup` stands in for `rb_hash_lookup`, and `RubyBridge.Global` for `rb_gv_get`. Both are plain map reads with nil for a missing key. Their meaning in the lookup is stated by `RubyValues.HashSegment`, and in the guard by the `RubyBridge` lemmas.
- `RubyLookup.RubyValue.WrapChild` and `Child` stand in for `ruby_value::wrap_child` and `ruby_value::child`. The file that defines them, `ruby_value.cc`, is not part of this model. Children are kept as values, not as owned objects, so "the identical child" is modelled as an equal value.
- `Stol.ParseLong` assumes a 64-bit `long`. On Windows `long` has 32 bits, which narrows the accepted range; that platform is not modelled.
- `rb_gv_set` runs Ruby's hook for `$stdout`, which rejects objects without a `write` method. The hook is not modelled.
- Custom fact code is reduced to global assignments, `puts` lines and a raise. It cannot read a global or branch on one. The guard covers only writes made through `$stdout`. Writes to the `STDOUT` constant and output from subprocesses go past it, and the model does not capture them.
- RubyBridge.ExecIgnoresStdout: holds only because the modelled code cannot read globals. Real code that inspects what `$stdout` names (`$stdout.tty?`, `$stdout.equal?($stderr)`) can write differently or raise, so the lemma covers only code that does not depend on `$stdout`.
- RubyBridge.GuardOnlyRedirects: for the same reason, it holds only for code that does not depend on what `$stdout` names. Under the guard, code that reads `$stdout` can behave differently from the same code run without it.
- Coherence of a root's cache is proved to survive `Lookup` only while every path looked up on that root is quote-free (`RubyLookup.Lookup`, `RubyLookup.LookupKeepsCoherent`); `RubyLookup.CacheCollision` shows a quoted path breaking it.
- The `load_puppet` script and `ruby.eval` are modelled as bootstrap actions whose raise is caught. What the script does inside Puppet is not modelled.
- `module::search`, the `module` constructor, the `facts` collection and the `paths` argument are not modelled: file discovery and fact registration live in `module.cc`, which is not part of this model.
- The Windows-only WSA start-up and the `setvbuf` calls (lib/src/ruby/ruby.cc:74-90, 108-111) change I/O buffering only and are not modelled.
- `uninitialize` (lib/src/ruby/ruby.cc:191-195) only forwards to the runtime's own teardown. It is not modelled.
- `Initialize` does not model where the Ruby library is looked for (`FACTER_RUBY`). Whether the library loads is a parameter.
- The resolver-group cache belongs to other files of the system and is not part of this model.
