/**
 * TextBubbleScript: the intro dialogue. Each line of `fullText` is typed
 * out one character at a time; a key press either completes the line being
 * typed or moves on to the next one, and past the last line asks for the
 * main scene.
 *
 * The typewriter coroutine is an explicit state: `typing` holds the line
 * being typed and how many of its characters are shown, and `Resume` is
 * what the coroutine does each time it is woken after its delay. Loading
 * the next scene is the flag `sceneRequested`.
 */
module Dialogue {
  import opened Engine

  /** A running ShowText coroutine: `shown` characters of `line` are on screen. */
  datatype Typing = Typing(line: string, shown: nat)

  class TextBubbleScript {
    const fullText: seq<string>
    var textCount: int
    var isTyping: bool
    /** What the bubble shows. */
    var text: string
    /** The ShowText coroutine, None once it has finished or been stopped. */
    var typing: Option<Typing>
    var sceneRequested: bool

    /**
     * A coroutine runs exactly while isTyping holds; it types the current
     * line and what is shown is a prefix of that line.
     */
    ghost predicate Valid()
      reads this
    {
      && textCount >= 0
      && (isTyping <==> typing.Some?)
      && (typing.Some? ==>
            && textCount < |fullText|
            && typing.value.line == fullText[textCount]
            && typing.value.shown <= |typing.value.line|
            && text == typing.value.line[..typing.value.shown])
    }

    constructor (lines: seq<string>)
      ensures Valid() && fullText == lines
      ensures textCount == 0 && !isTyping && text == "" && !sceneRequested
    {
      fullText := lines;
      textCount := 0;
      isTyping := false;
      text := "";
      typing := None;
      sceneRequested := false;
    }

    /**
     * StartCoroutine(ShowText(line)): the coroutine body runs at once up to
     * its first yield: typing starts, the text is emptied, and the first
     * character (if any) is shown. An empty line finishes straight away.
     */
    method StartShowText()
      requires Valid() && 0 <= textCount < |fullText| && !isTyping
      modifies this`isTyping, this`text, this`typing
      ensures Valid()
      ensures var line := fullText[textCount];
              if |line| == 0 then !isTyping && text == ""
              else isTyping && typing == Some(Typing(line, 1)) && text == line[..1]
    {
      var line := fullText[textCount];
      isTyping := true;
      text := "";
      if |line| == 0 {
        isTyping := false;
        typing := None;
      } else {
        text := text + [line[0]];
        typing := Some(Typing(line, 1));
      }
    }

    /**
     * One wake-up of the coroutine after its delay: append the next
     * character, or, with the whole line shown, finish and clear isTyping.
     * Without a running coroutine nothing happens.
     */
    method Resume()
      requires Valid()
      modifies this`isTyping, this`text, this`typing
      ensures Valid()
      ensures old(typing).None? ==> typing == None && text == old(text) && isTyping == old(isTyping)
      ensures old(typing).Some? && old(typing).value.shown < |old(typing).value.line| ==>
                && typing == Some(Typing(old(typing).value.line, old(typing).value.shown + 1))
                && text == old(text) + [old(typing).value.line[old(typing).value.shown]]
      ensures old(typing).Some? && old(typing).value.shown == |old(typing).value.line| ==>
                typing == None && !isTyping && text == old(typing).value.line
    {
      match typing
      case None =>
      case Some(t) =>
        if t.shown < |t.line| {
          text := text + [t.line[t.shown]];
          typing := Some(Typing(t.line, t.shown + 1));
        } else {
          isTyping := false;
          typing := None;
        }
    }

    /**
     * The coroutine left to run to its end: every wake-up shows one more
     * character, and at the end the whole line is shown and typing is over.
     */
    method FinishShowText()
      requires Valid()
      modifies this`isTyping, this`text, this`typing
      ensures Valid() && !isTyping && typing == None
      ensures old(typing).Some? ==> text == old(typing).value.line
      ensures old(typing).None? ==> text == old(text)
    {
      ghost var line := if typing.Some? then typing.value.line else text;
      while typing.Some?
        invariant Valid()
        invariant typing.Some? ==> typing.value.line == line
        invariant old(typing).Some? && typing.None? ==> text == line
        invariant old(typing).None? ==> typing.None? && text == old(text)
        decreases if typing.Some? then |line| - typing.value.shown + 1 else 0
      {
        Resume();
      }
    }

    /** Start: begin typing the first line, when there is one. */
    method Start()
      requires Valid() && !isTyping && textCount == 0
      modifies this`isTyping, this`text, this`typing
      ensures Valid()
      ensures |fullText| == 0 ==> !isTyping && text == old(text)
      ensures |fullText| > 0 ==> isTyping == (|fullText[0]| > 0)
      ensures |fullText| > 0 && |fullText[0]| > 0 ==> typing == Some(Typing(fullText[0], 1))
      ensures |fullText| > 0 && |fullText[0]| == 0 ==> text == ""
    {
      if |fullText| > 0 {
        StartShowText();
      }
    }

    /**
     * The key-press branch of Update. While typing, stop the coroutine
     * and show the whole current line. Otherwise move to the next line and
     * start typing it, or, past the last line, ask for the main scene.
     */
    method OnKeyDown()
      requires Valid()
      modifies this
      ensures Valid()
      ensures textCount >= old(textCount)
      ensures old(isTyping) ==>
                && textCount == old(textCount) && !isTyping && typing == None
                && text == fullText[textCount] && sceneRequested == old(sceneRequested)
      ensures !old(isTyping) ==> textCount == old(textCount) + 1
      ensures !old(isTyping) && textCount < |fullText| ==>
                && sceneRequested == old(sceneRequested)
                && isTyping == (|fullText[textCount]| > 0)
                && (isTyping ==> typing == Some(Typing(fullText[textCount], 1)))
                && (!isTyping ==> text == "")
      ensures !old(isTyping) && textCount >= |fullText| ==>
                sceneRequested && !isTyping && text == old(text)
    {
      if isTyping {
        typing := None;
        text := fullText[textCount];
        isTyping := false;
      } else {
        textCount := textCount + 1;
        if textCount < |fullText| {
          StartShowText();
        } else {
          sceneRequested := true;
        }
      }
    }
    /**
     * An upper bound on the key presses still needed to reach the main
     * scene: one press per line to complete it (while typing) and one to
     * move past it.
     */
    ghost function PressesLeft(): (n: nat)
      reads this
      ensures sceneRequested ==> n == 0
      ensures !sceneRequested && 0 <= textCount <= |fullText| ==> n <= 2 * (|fullText| - textCount) + 1
    {
      if sceneRequested then 0
      else if 0 <= textCount < |fullText| then 2 * (|fullText| - textCount) - 1 + (if isTyping then 1 else 0)
      else 1
    }

    /**
     * Pressing keys again and again gets through the dialogue: the main
     * scene is requested after at most PressesLeft() presses.
     */
    method PressUntilScene() returns (presses: nat)
      requires Valid()
      modifies this
      ensures Valid() && sceneRequested
      ensures presses <= old(PressesLeft())
    {
      presses := 0;
      while !sceneRequested
        invariant Valid()
        invariant presses + PressesLeft() <= old(PressesLeft())
        decreases PressesLeft()
      {
        OnKeyDown();
        presses := presses + 1;
      }
    }
  }
}
