/** handle_client's reading half: the command buffer, the body buffer and the bit bucket of one
    connection (conn.c), and the proof that they cut the stream exactly as Frames.Parse does. */
module Framing {
  import opened Lists
  import opened Frames

  const BUCKET_BUF_SIZE: nat := 1024

  /** Replying stands for SENDWORD, SENDJOB and WAIT: states in which nothing is read. */
  datatype InState = WantCommand | WantData | BitBucket | Replying

  /** memcpy and memmove of k bytes; within one array the target must not be above the source. */
  method CopyBytes(src: array<Byte>, from: nat, dst: array<Byte>, to: nat, k: nat)
    requires from + k <= src.Length && to + k <= dst.Length && (src == dst ==> to <= from)
    modifies dst
    ensures dst[..] == old(dst[..])[..to] + old(src[..])[from..from + k] + old(dst[..])[to + k..]
  {
    for i := 0 to k
      invariant dst[..to] == old(dst[..])[..to] && dst[to..to + i] == old(src[..])[from..from + i]
      invariant dst[to + i..] == old(dst[..])[to + i..]
      invariant src != dst ==> src[..] == old(src[..])
    {
      assert src == dst ==> dst[to + i..][from - to] == old(dst[..])[to + i..][from - to];
      assert src != dst ==> src[..][from + i] == old(src[..])[from + i];
      dst[to + i] := src[from + i];
    }
  }

  /** scan_eol, with memchr as a loop over all bytes but the last. */
  method FindEol(s: array<Byte>, size: nat) returns (n: nat)
    requires 0 < size <= s.Length
    ensures n == ScanEol(s[..size])
  {
    ghost var text := s[..size];
    var i := 0;
    while i < size - 1 && s[i] != CR
      invariant i <= size - 1 && CR !in text[..size - 1][..i]
    {
      assert text[..size - 1][..i + 1] == text[..size - 1][..i] + [s[i]];
      i := i + 1;
    }
    assert i < size - 1 ==> text[..size - 1][i] == s[i];
    FirstHit(text[..size - 1], CR, i);
    n := if i < size - 1 && s[i + 1] == LF then i + 2 else 0;
  }

  lemma SliceSplit(s: seq<Byte>, i: nat, j: nat, k: nat)
    requires i <= i + k <= j <= |s|
    ensures s[i..i + k] == s[i..j][..k] && s[i + k..j] == s[i..j][k..]
  {}

  class Input {
    const classify: Classifier
    const cmd: array<Byte>
    var cmdLen: nat
    var cmdRead: nat
    var state: InState
    /** The body of in_job. */
    var inJob: array?<Byte>
    /** Bytes of the body read so far; without a job, bytes still to be thrown away. */
    var inJobRead: nat

    ghost var received: seq<Byte>
    ghost var frames: seq<Frame>
    /** The line whose body is being read or thrown away, and what was thrown away. */
    ghost var line: seq<Byte>
    ghost var junk: seq<Byte>

    ghost predicate IsLine(text: seq<Byte>, kind: Kind) {
      |text| > 0 && LineLength(text) == |text| && classify(text[..|text| - 2]) == kind
    }

    /** What has been received but is not yet part of a frame. */
    ghost function Pending(): seq<Byte>
      requires cmdRead <= cmd.Length
      reads this, cmd, inJob
    {
      match state
      case WantData => if inJob == null || inJob.Length < inJobRead then [] else line + inJob[..inJobRead]
      case BitBucket => line + junk
      case _ => cmd[..cmdRead]
    }

    /** While a body is being read or thrown away, the command buffer is empty; otherwise it has room. */
    ghost predicate Buffers()
      reads this, inJob
    {
      && cmd.Length == LINE_BUF_SIZE && cmdLen == 0
      && match state
         case WantData =>
           cmdRead == 0 && inJob != null && inJob != cmd && inJobRead < inJob.Length && IsLine(line, Body(inJob.Length))
         case BitBucket =>
           cmdRead == 0 && inJob == null && 0 < inJobRead && IsLine(line, Skip(|junk| + inJobRead))
         case _ =>
           cmdRead < LINE_BUF_SIZE && inJob == null && inJobRead == 0
    }

    ghost predicate Valid()
      reads this, cmd, inJob
    {
      Buffers() && Cut(classify, received, frames, Pending())
    }

    /** A whole command line is in the buffer, but no command is being worked on. */
    ghost predicate Overdue()
      requires cmdRead <= cmd.Length
      reads this, cmd
    {
      state == WantCommand && LineLength(cmd[..cmdRead]) > 0
    }

    constructor (classify: Classifier)
      ensures Valid() && this.classify == classify && state == WantCommand && received == [] && frames == []
      ensures fresh(cmd) && cmdRead == 0 && !Overdue()
    {
      this.classify := classify;
      cmd := new Byte[LINE_BUF_SIZE];
      cmdLen, cmdRead, state, inJob, inJobRead := 0, 0, WantCommand, null, 0;
      received, frames, line, junk := [], [], [], [];
    }

    /** How many bytes the next read may return; 0 where nothing is read. */
    function Room(): nat
      requires Buffers()
      reads this, inJob
    {
      match state
      case WantCommand => LINE_BUF_SIZE - cmdRead
      case WantData => inJob.Length - inJobRead
      case BitBucket => if inJobRead < BUCKET_BUF_SIZE then inJobRead else BUCKET_BUF_SIZE
      case Replying => 0
    }

    /** The first half of fill_extra_data: k bytes behind the command line leave for the job, or for the bucket. */
    method TakeExtra(extra: nat) returns (k: nat)
      requires cmdLen + extra == cmdRead <= cmd.Length && inJob != cmd
      modifies this`inJobRead, inJob
      ensures k == Smaller(extra, if inJob != null then inJob.Length else old(inJobRead))
      ensures cmd[..] == old(cmd[..])
      ensures if inJob != null then inJobRead == k && inJob[..k] == cmd[..][cmdLen..cmdLen + k] else inJobRead == old(inJobRead) - k
    {
      k := 0;
      if inJob != null {
        k := Smaller(extra, inJob.Length);
        CopyBytes(cmd, cmdLen, inJob, 0, k);
        inJobRead := k;
      } else if inJobRead != 0 {
        k := Smaller(extra, inJobRead);
        inJobRead := inJobRead - k;
      }
    }

    /** The second half: what is left moves to the front of the buffer. */
    method KeepRest(k: nat)
      requires cmdLen + k <= cmdRead <= cmd.Length
      modifies this`cmdLen, this`cmdRead, cmd
      ensures cmdLen == 0 && cmdRead == old(cmdRead) - old(cmdLen) - k
      ensures cmd[..cmdRead] == old(cmd[..])[old(cmdLen) + k..old(cmdRead)]
    {
      var rest := cmdRead - cmdLen - k;
      CopyBytes(cmd, cmdLen + k, cmd, 0, rest);
      cmdRead := rest;
      cmdLen := 0;
    }

    /** fill_extra_data: bytes behind the command line go to the job, or to the bucket, as far as
        these want them; the others become the start of the next command. */
    method FillExtraData()
      requires cmdLen <= cmdRead <= cmd.Length && inJob != cmd
      modifies this`cmdLen, this`cmdRead, this`inJobRead, cmd, inJob
      ensures cmdLen == 0
      ensures old(cmdLen) == 0 ==> cmdRead == old(cmdRead) && inJobRead == old(inJobRead) && cmd[..] == old(cmd[..])
      ensures old(cmdLen) == 0 && inJob != null ==> inJob[..] == old(inJob[..])
      ensures old(cmdLen) > 0 ==>
                var extra := old(cmd[cmdLen..cmdRead]);
                var k := Smaller(|extra|, if inJob != null then inJob.Length else old(inJobRead));
                && cmdRead == |extra| - k && cmd[..cmdRead] == extra[k..]
                && (if inJob != null then inJobRead == k && inJob[..k] == extra[..k] else inJobRead == old(inJobRead) - k)
    {
      if cmdLen != 0 {
        var extra := cmdRead - cmdLen;
        ghost var was := cmd[..];
        var k := TakeExtra(extra);
        SliceSplit(was, cmdLen, cmdRead, k);
        KeepRest(k);
      }
    }

    /** A command line is at the front of the buffer, and nothing else is going on. */
    ghost predicate AtLine(text: seq<Byte>)
      reads this, cmd
    {
      && state == WantCommand && inJob == null && inJobRead == 0
      && cmd.Length == LINE_BUF_SIZE && 0 < cmdLen <= cmdRead <= LINE_BUF_SIZE
      && text == cmd[..cmdRead] && cmdLen == LineLength(text) && Cut(classify, received, frames, text)
    }

    lemma LineOf(text: seq<Byte>)
      requires AtLine(text)
      ensures IsLine(text[..cmdLen], classify(cmd[..cmdLen - 2]))
      ensures text == text[..cmdLen] + cmd[cmdLen..cmdRead]
    {
      hide Cut, LineLength;
      LineAlone(text);
      assert text[..cmdLen][..cmdLen - 2] == cmd[..cmdLen - 2];
    }

    /** The frame that has just become complete. */
    ghost method Emit(f: Frame, more: seq<Byte>)
      requires Cut(classify, received, frames, Bytes(f) + more) && Next(classify, Bytes(f) + more) == Complete(f)
      modifies this`frames
      ensures frames == old(frames) + [f] && Cut(classify, received, frames, more)
    {
      CutFrame(classify, received, frames, f, more);
      frames := frames + [f];
    }

    /** All bytes of the body have arrived, and more is what follows them in the command buffer. */
    ghost predicate BodyDone(body: seq<Byte>, more: seq<Byte>)
      reads this, cmd
    {
      && IsLine(line, Body(|body|)) && Cut(classify, received, frames, line + body + more)
      && cmd.Length == LINE_BUF_SIZE && cmdLen == 0 && cmdRead < LINE_BUF_SIZE && cmd[..cmdRead] == more
    }

    /** enqueue_incoming_job, as far as the stream goes. */
    method FinishBody(ghost body: seq<Byte>, ghost more: seq<Byte>)
      requires BodyDone(body, more)
      modifies this`state, this`inJob, this`inJobRead, this`frames
      ensures Valid() && state == Replying && frames == old(frames) + [Put(line, body)]
    {
      hide Cut, Next, LineLength;
      WholeFrame(classify, line, body, more);
      Emit(Put(line, body), more);
      inJob := null;
      inJobRead := 0;
      state := Replying;
    }

    /** The same for bytes that were thrown away. */
    ghost predicate JunkDone(thrown: seq<Byte>, more: seq<Byte>)
      reads this, cmd
    {
      && IsLine(line, Skip(|thrown|)) && Cut(classify, received, frames, line + thrown + more) && inJob == null && inJobRead == 0
      && cmd.Length == LINE_BUF_SIZE && cmdLen == 0 && cmdRead < LINE_BUF_SIZE && cmd[..cmdRead] == more
    }

    /** The reply that ends bit-bucket mode. */
    method FinishJunk(ghost thrown: seq<Byte>, ghost more: seq<Byte>)
      requires JunkDone(thrown, more)
      modifies this`state, this`frames
      ensures Valid() && state == Replying && frames == old(frames) + [Skipped(line, thrown)]
    {
      hide Cut, Next, LineLength;
      WholeFrame(classify, line, thrown, more);
      Emit(Skipped(line, thrown), more);
      state := Replying;
    }

    /** do_cmd is working on a line of the given kind; rest is what the buffer holds behind it. */
    ghost predicate LineTaken(kind: Kind, rest: seq<Byte>)
      reads this, cmd
    {
      && inJob == null && inJobRead == 0 && cmd.Length == LINE_BUF_SIZE && 2 <= cmdLen <= cmdRead <= LINE_BUF_SIZE
      && |line| == cmdLen && rest == cmd[cmdLen..cmdRead] && IsLine(line, kind)
      && Cut(classify, received, frames, line + rest)
    }

    /** One frame more if a reply is due now, else none. */
    twostate predicate OnePerReply()
      reads this
    {
      old(frames) <= frames && |frames| == |old(frames)| + (if state == Replying then 1 else 0)
    }

    /** The end of a put: take what is already there, and wait for the rest of the body. */
    method StartBody(n: nat, ghost rest: seq<Byte>)
      requires LineTaken(Body(n), rest)
      modifies this, cmd
      ensures Valid() && OnePerReply() && received == old(received) && state != WantCommand
    {
      hide Cut, LineLength, Next;
      inJob := new Byte[n];
      FillExtraData();
      ghost var k := Smaller(|rest|, n);
      assert rest == rest[..k] + rest[k..];
      assert line + rest == line + rest[..k] + rest[k..];
      if inJobRead == inJob.Length {
        assert inJob[..k] == rest[..k];
        FinishBody(rest[..k], rest[k..]);
      } else {
        assert rest[..k] == rest;
        state := WantData;
      }
    }

    /** skip_and_reply. */
    method SkipAndReply(n: nat, ghost rest: seq<Byte>)
      requires LineTaken(Skip(n), rest)
      modifies this, cmd
      ensures Valid() && OnePerReply() && received == old(received) && state != WantCommand
    {
      hide Cut, LineLength, Next;
      inJob := null;
      inJobRead := n;
      FillExtraData();
      ghost var k := Smaller(|rest|, n);
      assert line + rest == line + rest[..k] + rest[k..];
      if inJobRead == 0 {
        FinishJunk(rest[..k], rest[k..]);
      } else {
        junk := rest;
        state := BitBucket;
      }
    }

    /** Every command that is answered at once. */
    method Answer(ghost rest: seq<Byte>)
      requires LineTaken(Plain, rest)
      modifies this, cmd
      ensures Valid() && OnePerReply() && received == old(received) && state != WantCommand
    {
      hide Cut, LineLength, Next;
      assert line + [] + rest == line + rest;
      WholeFrame(classify, line, [], rest);
      Emit(Line(line), rest);
      state := Replying;
      FillExtraData();
    }

    /** do_cmd's first lines: the line is terminated with a NUL and classified. */
    method TakeLine(ghost text: seq<Byte>) returns (kind: Kind, ghost rest: seq<Byte>)
      requires AtLine(text)
      modifies this`line, cmd
      ensures LineTaken(kind, rest)
    {
      LineOf(text);
      hide Cut, LineLength, Next;
      line := text[..cmdLen];
      rest := cmd[cmdLen..cmdRead];
      kind := classify(cmd[..cmdLen - 2]);
      cmd[cmdLen - 2] := 0;
    }

    /** do_cmd, with the fill_extra_data that follows it. */
    method DoCmd(ghost text: seq<Byte>)
      requires AtLine(text)
      modifies this, cmd
      ensures Valid() && OnePerReply() && received == old(received) && state != WantCommand
    {
      hide Valid, AtLine, LineTaken, Cut;
      var kind, rest := TakeLine(text);
      match kind
      case Plain => Answer(rest);
      case Body(n) => StartBody(n, rest);
      case Skip(n) => SkipAndReply(n, rest);
    }

    /** The read itself: the bytes go behind those already in the buffer. */
    method Fill(chunk: array<Byte>) returns (ghost text: seq<Byte>)
      requires Valid() && state == WantCommand && chunk != cmd && 0 < chunk.Length <= LINE_BUF_SIZE - cmdRead
      modifies this`received, this`cmdRead, cmd
      ensures inJob == null && inJobRead == 0 && cmd.Length == LINE_BUF_SIZE && cmdLen == 0
      ensures received == old(received) + chunk[..] && 0 < cmdRead <= LINE_BUF_SIZE
      ensures text == cmd[..cmdRead] && Cut(classify, received, frames, text)
    {
      text := cmd[..cmdRead] + chunk[..];
      CutMore(classify, received, frames, Pending(), chunk[..]);
      hide Cut, LineLength, Next;
      received := received + chunk[..];
      CopyBytes(chunk, 0, cmd, cmdRead, chunk.Length);
      cmdRead := cmdRead + chunk.Length;
      assert cmd[..cmdRead] == text;
    }

    /** A full buffer without a line is thrown away. */
    method Discard(ghost text: seq<Byte>)
      requires inJob == null && inJobRead == 0 && cmd.Length == LINE_BUF_SIZE && cmdLen == 0
      requires |text| == LINE_BUF_SIZE && ScanEol(text) == 0 && Cut(classify, received, frames, text)
      modifies this`cmdRead, this`state, this`frames
      ensures Valid() && frames == old(frames) + [Overlong(text)] && state == Replying
    {
      hide Cut, LineLength, Next, ScanEol;
      OverlongFrame(classify, text);
      assert text + [] == text;
      Emit(Overlong(text), []);
      cmdRead := 0;
      state := Replying;
    }

    /** STATE_WANTCOMMAND. */
    method ReadCommand(chunk: array<Byte>)
      requires Valid() && state == WantCommand && chunk != cmd && 0 < chunk.Length <= LINE_BUF_SIZE - cmdRead
      modifies this, cmd
      ensures Valid() && OnePerReply() && received == old(received) + chunk[..] && !Overdue()
    {
      hide Cut, LineLength, Next, ScanEol;
      ghost var text := Fill(chunk);
      cmdLen := FindEol(cmd, cmdRead);
      LineLengthIs(text);
      if cmdLen != 0 {
        DoCmd(text);
      } else if cmdRead == LINE_BUF_SIZE {
        Discard(text);
      }
    }

    /** STATE_WANTDATA. */
    method ReadBody(chunk: array<Byte>)
      requires Valid() && state == WantData && chunk != cmd && chunk != inJob && 0 < chunk.Length <= Room()
      modifies this, inJob
      ensures Valid() && OnePerReply() && received == old(received) + chunk[..] && state != WantCommand
    {
      hide Cut, LineLength, Next;
      ghost var body := inJob[..inJobRead] + chunk[..];
      CutMore(classify, received, frames, Pending(), chunk[..]);
      received := received + chunk[..];
      assert line + inJob[..inJobRead] + chunk[..] == line + body;
      CopyBytes(chunk, 0, inJob, inJobRead, chunk.Length);
      inJobRead := inJobRead + chunk.Length;
      assert inJob[..inJobRead] == body;
      if inJobRead == inJob.Length {
        assert line + body == line + body + [];
        FinishBody(body, []);
      }
    }

    /** STATE_BITBUCKET. */
    method ReadJunk(chunk: array<Byte>)
      requires Valid() && state == BitBucket && chunk != cmd && 0 < chunk.Length <= Room()
      modifies this
      ensures Valid() && OnePerReply() && received == old(received) + chunk[..] && state != WantCommand
    {
      hide Cut, LineLength, Next;
      CutMore(classify, received, frames, Pending(), chunk[..]);
      received := received + chunk[..];
      assert line + junk + chunk[..] == line + (junk + chunk[..]);
      junk := junk + chunk[..];
      inJobRead := inJobRead - chunk.Length;
      if inJobRead == 0 {
        assert line + junk == line + junk + [];
        FinishJunk(junk, []);
      }
    }

    /** handle_client on a readable socket whose read returned the bytes of chunk. */
    method HandleRead(chunk: array<Byte>)
      requires Valid() && chunk != cmd && chunk != inJob && 0 < chunk.Length <= Room()
      modifies this, cmd, inJob
      ensures Valid() && OnePerReply() && received == old(received) + chunk[..] && !Overdue()
    {
      hide Cut, LineLength, Next;
      match state
      case WantCommand => ReadCommand(chunk);
      case WantData => ReadBody(chunk);
      case BitBucket => ReadJunk(chunk);
      case Replying =>
    }

    /** conn_reset: the reply has been sent, the next command may come. Nothing looks at what the buffer
        holds already, so a line that is complete there waits until more bytes arrive. */
    method Reset()
      requires Valid() && state == Replying
      modifies this`state
      ensures Valid() && state == WantCommand
      ensures Overdue() <==> LineLength(old(Pending())) > 0
    {
      state := WantCommand;
    }

    /** The frames handled so far are the beginning of the one parse of everything received, the
        rest of that parse is the parse of the pending bytes, and no byte is lost or used twice. */
    lemma FramesOfParse()
      requires Valid()
      ensures Parse(classify, received) == frames + Parse(classify, Pending())
      ensures received == Flatten(frames) + Pending()
      ensures state == WantData || state == BitBucket ==> cmdRead == 0
    {
      CutIsParse(classify, received, frames, Pending());
      CutCovers(classify, received, frames, Pending());
    }
  }

  /** Every frame that has arrived completely has been handled, if and only if the pending bytes hold none;
      and between commands they hold one only if a line is overdue. */
  lemma HandledAll(c: Input)
    requires c.Valid()
    ensures c.frames == Parse(c.classify, c.received) <==> Next(c.classify, c.Pending()) == Incomplete
    ensures c.state == WantCommand && !c.Overdue() ==> c.frames == Parse(c.classify, c.received)
    ensures c.state == WantData || c.state == BitBucket ==> c.frames == Parse(c.classify, c.received)
  {
    c.FramesOfParse();
    var rest := Parse(c.classify, c.Pending());
    assert c.frames + rest == c.frames <==> rest == [];
    if c.state == WantData {
      LineStillOpen(c.classify, c.line, c.inJob[..c.inJobRead], Body(c.inJob.Length));
    } else if c.state == BitBucket {
      LineStillOpen(c.classify, c.line, c.junk, Skip(|c.junk| + c.inJobRead));
    }
    hide Cut, LineLength;
  }

  lemma LineStillOpen(cl: Classifier, line: seq<Byte>, some: seq<Byte>, kind: Kind)
    requires |line| > 0 && LineLength(line) == |line| && cl(line[..|line| - 2]) == kind
    requires kind == Body(if kind.Body? then kind.n else 0) || kind == Skip(if kind.Skip? then kind.n else 0)
    requires !kind.Plain? && |some| < kind.n
    ensures Next(cl, line + some) == Incomplete
  {
    LineStable(line, some);
    assert (line + some)[..|line| - 2] == line[..|line| - 2];
    hide LineLength;
  }

  lemma ParseLine(cl: Classifier, line: seq<Byte>, rest: seq<Byte>)
    requires |line| > 0 && LineLength(line) == |line| && cl(line[..|line| - 2]) == Plain
    ensures Parse(cl, line + rest) == [Line(line)] + Parse(cl, rest)
  {
    WholeFrame(cl, line, [], rest);
    assert line + [] + rest == line + rest && (line + rest)[|line|..] == rest;
    hide LineLength, Next;
  }

  /** A line of one character. */
  function Letter(a: Byte): (line: seq<Byte>)
    ensures |line| == 3
  {
    [a, CR, LF]
  }

  lemma LetterIsLine(a: Byte)
    requires a != CR
    ensures LineLength(Letter(a)) == 3 && Letter(a)[..1] == [a]
  {
    var s := Letter(a);
    assert s[..|s| - 1] == [a, CR] && [a, CR][..1] == [a];
    FirstHit(s[..|s| - 1], CR, 1);
    hide Find;
  }

  lemma TwoLines(cl: Classifier, a: Byte, b: Byte)
    requires a != CR && b != CR && cl([a]) == Plain && cl([b]) == Plain
    ensures Parse(cl, Letter(a) + Letter(b)) == [Line(Letter(a)), Line(Letter(b))]
  {
    LetterIsLine(a);
    LetterIsLine(b);
    hide LineLength, Letter;
    ParseLine(cl, Letter(a), Letter(b));
    ParseLine(cl, Letter(b), []);
    NothingParsed(cl);
    assert Letter(b) + [] == Letter(b);
    hide Parse;
  }

  lemma NothingParsed(cl: Classifier)
    ensures Parse(cl, []) == []
  {}

  /** Two commands in one read, both of the kind that is answered at once: the first is answered, the second
      waits, complete, until the client sends something else. */
  method LeftWaiting(classify: Classifier, a: Byte, b: Byte) returns (c: Input)
    requires a != CR && b != CR && classify([a]) == Plain && classify([b]) == Plain
    ensures c.Valid() && c.classify == classify && c.received == Letter(a) + Letter(b) && c.Overdue()
    ensures |c.frames| == 1 && Parse(classify, c.received) == [Line(Letter(a)), Line(Letter(b))]
  {
    hide Input.Valid, Parse, LineLength;
    c := new Input(classify);
    var chunk := new Byte[] [a, CR, LF, b, CR, LF];
    RoomFor(c);
    c.HandleRead(chunk);
    assert c.received == Letter(a) + Letter(b);
    TwoLines(classify, a, b);
    HandledAll(c);
    c.Reset();
    HandledAll(c);
  }

  lemma RoomFor(c: Input)
    requires c.Valid() && c.state == WantCommand
    ensures c.Buffers() && c.inJob == null && c.Room() == LINE_BUF_SIZE - c.cmdRead
  {}

  /** Two connections that have sent the same bytes so far, cut into reads however the network liked,
      have been understood the same way, as far as both have got. */
  lemma ChunkingDoesNotMatter(a: Input, b: Input)
    requires a.Valid() && b.Valid() && a.classify == b.classify && a.received <= b.received
    ensures a.frames <= b.frames || b.frames <= a.frames
    ensures a.frames <= Parse(b.classify, b.received) && b.frames <= Parse(b.classify, b.received)
  {
    hide *;
    a.FramesOfParse();
    b.FramesOfParse();
    var more := b.received[|a.received|..];
    assert b.received == a.received + more;
    ParseGrows(a.classify, a.received, more);
    PrefixesAgree(a.frames, b.frames, Parse(b.classify, b.received));
  }

  function Smaller(a: nat, b: nat): nat { if a < b then a else b }
}
