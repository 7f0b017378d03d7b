/** handle_client's writing half (conn.c): a reply line, or a reply line and a job body, sent by
    as many partial writes as it takes. */
module Writing {
  import opened Frames

  datatype OutState = SendWord | SendJob | Sent

  class Output {
    var state: OutState
    const reply: array<Byte>
    var replySent: nat
    /** The body of out_job; empty for a bare line. */
    const body: array<Byte>
    var outJobSent: nat
    /** Everything the socket has accepted. */
    ghost var sent: seq<Byte>

    ghost predicate Valid()
      reads this, reply, body
    {
      && replySent <= reply.Length && outJobSent <= body.Length
      && (outJobSent > 0 ==> replySent == reply.Length)
      && (state == SendWord ==> body.Length == 0 && replySent < reply.Length)
      && (state == SendJob ==> outJobSent < body.Length)
      && (state == Sent ==> replySent == reply.Length && outJobSent == body.Length)
      && sent == reply[..replySent] + body[..outJobSent]
    }

    /** reply_line, reply_msg: one line. */
    constructor Word(line: array<Byte>)
      requires line.Length > 0
      ensures Valid() && state == SendWord && reply == line && sent == [] && fresh(body) && body.Length == 0
    {
      reply, body := line, new Byte[0];
      state, replySent, outJobSent, sent := SendWord, 0, 0, [];
    }

    /** reply_job: a line and a job; every body ends in CR LF, so none is empty. */
    constructor Job(line: array<Byte>, body: array<Byte>)
      requires body.Length >= 2
      ensures Valid() && state == SendJob && reply == line && this.body == body && sent == []
    {
      reply, this.body := line, body;
      state, replySent, outJobSent, sent := SendJob, 0, 0, [];
    }

    /** What the two iovec entries offer to the socket. */
    ghost function Offered(): seq<Byte>
      requires Valid()
      reads this, reply, body
    {
      if state == SendWord then reply[replySent..] else reply[replySent..] + body[outJobSent..]
    }

    /** write accepted r bytes of the line. */
    method WordWritten(r: nat)
      requires Valid() && state == SendWord && 0 < r <= |Offered()|
      modifies this
      ensures Valid() && sent == old(sent) + old(Offered())[..r]
      ensures state == if sent == reply[..] then Sent else SendWord
    {
      ghost var was := replySent;
      replySent := replySent + r;
      sent := sent + reply[was..][..r];
      assert reply[..replySent] == reply[..was] + reply[was..replySent];
      if replySent == reply.Length {
        state := Sent;
      }
      assert replySent == reply.Length <==> sent == reply[..];
    }

    /** writev accepted r bytes: first of the line, then of the body. */
    method JobWritten(r: nat)
      requires Valid() && state == SendJob && 0 < r <= |Offered()|
      modifies this
      ensures Valid() && sent == old(sent) + old(Offered())[..r]
      ensures state == if sent == reply[..] + body[..] then Sent else SendJob
    {
      Advance(reply[..], body[..], replySent, outJobSent, r);
      sent := sent + Offered()[..r];
      replySent := replySent + r;
      if replySent >= reply.Length {
        outJobSent := outJobSent + (replySent - reply.Length);
        replySent := reply.Length;
      }
      if outJobSent == body.Length {
        state := Sent;
      }
    }

    /** What has been sent and what is still offered are together the message, at every moment:
        nothing is skipped and nothing repeated, whatever the writes returned. */
    lemma Reassembles()
      requires Valid()
      ensures sent + Offered() == reply[..] + body[..]
      ensures state == Sent <==> sent == reply[..] + body[..]
    {
      if state == SendWord {
        assert reply[..] == reply[..replySent] + reply[replySent..];
      } else {
        Split(reply[..], body[..], replySent, outJobSent);
      }
    }
  }

  lemma Split(line: seq<Byte>, text: seq<Byte>, i: nat, j: nat)
    requires i <= |line| && j <= |text| && (j > 0 ==> i == |line|)
    ensures line[..i] + text[..j] + (line[i..] + text[j..]) == line + text
    ensures line[..i] + text[..j] == line + text <==> i == |line| && j == |text|
  {
    assert |line[..i] + text[..j]| == i + j;
    if i == |line| {
      assert line[..i] == line && line[i..] == [];
    } else {
      assert text[..j] == [] && text[j..] == text;
    }
  }

  /** The cursor arithmetic of handle_client, on the two buffers. */
  lemma Advance(line: seq<Byte>, text: seq<Byte>, i: nat, j: nat, r: nat)
    requires i <= |line| && j <= |text| && (j > 0 ==> i == |line|) && r <= |line| - i + |text| - j
    ensures var over := if i + r >= |line| then i + r - |line| else 0;
            var i2, j2 := i + r - over, j + over;
            && j2 <= |text| && line[..i2] + text[..j2] == line[..i] + text[..j] + (line[i..] + text[j..])[..r]
            && (line[..i2] + text[..j2] == line + text <==> i2 == |line| && j2 == |text|)
  {
    var over := if i + r >= |line| then i + r - |line| else 0;
    Split(line, text, i, j);
    Split(line, text, i + r - over, j + over);
    var all := line + text;
    assert line[..i] + text[..j] == all[..i + j];
    assert line[i..] + text[j..] == all[i + j..];
    assert all[..i + j + r] == all[..i + j] + all[i + j..][..r];
    assert line[..i + r - over] + text[..j + over] == all[..i + j + r];
  }
}
