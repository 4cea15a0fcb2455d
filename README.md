# video::Buffer — a verified model of the one-shot frame store

`video::Buffer` is the frame store of the lubyk media library that
`video::Camera` and `video::Decoder` inherit. It holds one nullable byte buffer together with
its length and the frame's width, height and element size. `allocateFrame`
may allocate it once only. A call on a buffer that already holds memory
throws "Cannot resize or reallocate frame." and changes nothing. A failed `malloc` makes the call return `false`
and leaves the buffer empty. The accessors `frameSize`, `frameData` and
`frameInfo` report the state to the embedding Lua runtime.

The model is the single file `buffer.dfy`, module `Video`:

- `Video.Buffer` is a class with the source's fields: `frame` (a nullable
  `array<bv8>` for `frame_`), `frameLen`, `width`, `height` and `elemSize`.
  `Valid()` is its invariant and `State()` its observable value.
- `BufferState`, `Allocate` and `Consistent` describe the same store as a
  value. `AllocateFrame` is specified by `Allocate` through `State()`.
- `Run` replays any sequence of calls on a `BufferState`. The lemmas about
  `Run` state what holds over a buffer's whole life.
- A `throw` is the outcome `Threw(message)` and a `bool` return is
  `Returned(ok)`. The result of `malloc` is the parameter `mallocOk`.
- The Lua pushes are returned as a sequence of `LuaValue`s: a light user
  datum for the frame pointer, a number for each dimension. The
  `LuaStackSize` return value is the `count` out-parameter, which equals the
  length of that sequence.

`allocateFrame` checks no sign and accepts zero dimensions. A call on a buffer
that already holds memory throws one exception with a fixed message. A
failed `malloc` is a plain `false` return and leaves the buffer empty, so a
later call may allocate.

## Model

| member | source | states |
|---|---|---|
| `Video.Initial` | include/video/Buffer.h:51-57 | a fresh buffer holds no memory, its length and all three dimensions are zero, and that state satisfies the invariant |
| `Video.Buffer.constructor` | include/video/Buffer.h:51-57 | the constructed object is valid, its pointer is null and its state is the initial one |
| `Video.Allocate` | include/video/Buffer.h:86-103 | on a buffer that holds memory the call throws the reallocation message and changes nothing; on a buffer that holds no memory it returns `true` when `malloc` succeeds and `false` when it fails; a `true` return records the length `w*h*elem` and the dimensions `w`, `h`, `elem`; any other outcome leaves the state unchanged; the invariant `frameLen == width*height*elemSize` is preserved |
| `Video.Buffer.AllocateFrame` | include/video/Buffer.h:86-103 | the object's new state and the returned outcome are those of `Allocate` on its old state; an existing pointer is kept; a successful call holds a fresh block of exactly `w*h*elem` bytes; a failed one leaves the pointer null; the object stays valid |
| `Video.FailedAllocationAllowsRetry` | include/video/Buffer.h:93-101 | a failed allocation leaves the state unchanged, so the next call is not rejected as a reallocation and succeeds exactly when its own `malloc` does |
| `Video.RunKeepsConsistent` | include/video/Buffer.h:51-103 | the invariant `frameLen == width*height*elemSize` (zero while no memory is held) holds after every sequence of calls |
| `Video.AllocatedIsPermanent` | include/video/Buffer.h:86-89 | once memory is held, no sequence of calls releases it or changes its length and dimensions, and every later `allocateFrame` throws the reallocation message |
| `Video.AtMostOneSuccess` | include/video/Buffer.h:86-103 | over any sequence of calls at most one allocation returns `true`, none once memory is held, and the buffer ends up holding memory exactly when it already did or one allocation succeeded |
| `Video.Buffer.FrameSize` | include/video/Buffer.h:74-76 | returns the recorded length: zero before allocation and the product of the recorded dimensions on a valid buffer |
| `Video.Buffer.FrameData` | include/video/Buffer.h:66-70 | pushes no value while no memory is held and exactly one, the frame pointer, once it is; the count returned is the number pushed; the pointer addresses exactly `frameSize()` bytes |
| `Video.Buffer.FrameInfo` | include/video/Buffer.h:78-83 | always pushes exactly three numbers, the current width, height and element size, whose product is the frame size on a valid buffer |
| `Video.ReallocationScenario` | include/video/Buffer.h:86-99 | after a successful 640x480x4 allocation a 320x240x4 one throws, and `frameInfo()` and `frameSize()` still report 640, 480, 4 and 1228800 |
| `Video.RetryScenario` | include/video/Buffer.h:93-101 | after an allocation whose `malloc` fails, `frameData()` pushes nothing and a second allocation succeeds, after which `frameData()` pushes one value |

## Left out

- Integer width: `w * h * elem` is computed over unbounded integers. The `int` overflow of the product, and its conversion to `size_t`, are not modelled. Negative arguments are excluded by precondition on the path that forms the product; on an allocated buffer any arguments are accepted, since the source throws before using them.
- `malloc` is the `mallocOk` parameter. A successful allocation is a fresh `bv8` array of the requested length. The bytes are not modelled, because nothing in `Buffer` reads or writes them: the subclasses fill them on every frame.
- The destructor's `free` is memory management and is not modelled.
- `padding_` is never initialised or read and is not modelled.
- The Lua calls `lua_pushlightuserdata` and `lua_pushnumber` are foreign. Only the values they would push are returned. A `lua_Number` is a floating-point value, and the dimensions are modelled as integers.
- `video::Camera`, `video::Decoder`, `media::Decoder` and `video::File` are not part of this model. Their behaviour lives in platform code that is not part of these files, and their `newFrame` callbacks are Lua plumbing. `media/Buffer.h` is not part of this model either.
- The `dub::Thread` base of the capture classes is concurrency with no visible logic and is not modelled.
- `Video.Run` only replays `allocateFrame` calls with non-negative arguments, since the model's calls carry `nat` dimensions.
