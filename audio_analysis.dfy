/**
 * Enrichment of a track's raw music analysis (src/AudioAnalysis.ts).
 *
 * `processRawAnalysis` copies the raw analysis and replaces its bars, beats,
 * sections, segments and track by enriched versions. Every enriched event
 * keeps its raw record in the field `raw` (the object spread `...beat`) and
 * adds the derived fields beside it.
 */
module AudioAnalysis {
  import opened Numeric

  // ----- Raw analysis, as delivered by the analysis service -----

  /** A bar, beat or tatum. */
  datatype TimedEvent = TimedEvent(start: real, duration: real, confidence: real)

  datatype RawSection = RawSection(
    start: real, duration: real, confidence: real,
    loudness: real, tempo: real, tempoConfidence: real,
    key: real, keyConfidence: real, mode: real, modeConfidence: real,
    timeSignature: real, timeSignatureConfidence: real)

  datatype RawSegment = RawSegment(
    start: real, duration: real, confidence: real,
    loudnessStart: real, loudnessMaxTime: real, loudnessMax: real, loudnessEnd: real,
    pitches: seq<real>, timbre: seq<real>)

  datatype Meta = Meta(
    analyzerVersion: string, platform: string, detailedStatus: string,
    statusCode: real, timestamp: real, analysisTime: real, inputProcess: string)

  datatype RawTrack = RawTrack(
    numSamples: real, duration: real, sampleMd5: string,
    offsetSeconds: real, windowSeconds: real,
    analysisSampleRate: real, analysisChannels: real,
    endOfFadeIn: real, startOfFadeOut: real,
    loudness: real, tempo: real, tempoConfidence: real,
    timeSignature: real, timeSignatureConfidence: real,
    key: real, keyConfidence: real, mode: real, modeConfidence: real,
    codestring: string, codeVersion: real,
    echoprintstring: string, echoprintVersion: real,
    synchstring: string, synchVersion: real,
    rhythmstring: string, rhythmVersion: real)

  datatype RawAudioAnalysis = RawAudioAnalysis(
    bars: seq<TimedEvent>, beats: seq<TimedEvent>, meta: Meta,
    sections: seq<RawSection>, segments: seq<RawSegment>,
    tatums: seq<TimedEvent>, track: RawTrack)

  // ----- Enriched analysis -----

  datatype Bar = Bar(raw: TimedEvent, progressPct: Num)
  datatype Beat = Beat(raw: TimedEvent, progressPct: Num, startMs: real)
  datatype Section = Section(raw: RawSection, startProgressPct: Num, endProgressPct: Num)
  datatype Segment = Segment(raw: RawSegment, avgPitch: nat, progressPct: Num, startMs: real)
  datatype Track = Track(raw: RawTrack, beatTimingsMs: seq<real>)

  datatype Analysis = Analysis(
    bars: seq<Bar>, beats: seq<Beat>, meta: Meta,
    sections: seq<Section>, segments: seq<Segment>,
    tatums: seq<TimedEvent>, track: Track)

  // ----- The arg-max fold behind `avgPitch` -----

  /** The accumulator `{ conf, i }` of the pitch reduce. */
  datatype PitchPeak = PitchPeak(conf: real, i: nat)

  /** One step of the reduce: replace the accumulator only on a strictly greater pitch. */
  function PeakStep(acc: PitchPeak, pitch: real, idx: nat): PitchPeak
  {
    if pitch > acc.conf then PitchPeak(pitch, idx) else acc
  }

  /** `pitches.reduce(PeakStep, { conf: 0, i: 0 })`, written as a fold over the prefix. */
  function ReducePitches(pitches: seq<real>): (r: PitchPeak)
    ensures r.conf >= 0.0
    ensures r.conf == 0.0 ==> r.i == 0
    ensures r.conf > 0.0 ==> r.i < |pitches| && pitches[r.i] == r.conf
    decreases |pitches|
  {
    if |pitches| == 0 then PitchPeak(0.0, 0)
    else PeakStep(ReducePitches(pitches[..|pitches| - 1]), pitches[|pitches| - 1], |pitches| - 1)
  }

  /** The pitch-class index a segment is labelled with: an arg-max, not an average. */
  function AvgPitch(pitches: seq<real>): nat
  {
    ReducePitches(pitches).i
  }

  /** `k` is the first index holding the largest pitch. */
  ghost predicate IsFirstMaximum(pitches: seq<real>, k: nat)
  {
    && k < |pitches|
    && (forall j :: 0 <= j < |pitches| ==> pitches[j] <= pitches[k])
    && (forall j :: 0 <= j < k ==> pitches[j] < pitches[k])
  }

  // ----- Per-event enrichment -----

  function EnrichBar(bar: TimedEvent, trackDuration: real): (r: Bar)
    ensures r.raw == bar
  {
    Bar(bar, Div(bar.start, trackDuration))
  }

  function EnrichBeat(beat: TimedEvent, trackDuration: real): (r: Beat)
    ensures r.raw == beat
  {
    Beat(beat, Div(beat.start, trackDuration), beat.start * 1000.0)
  }

  function EnrichSegment(segment: RawSegment, trackDuration: real): (r: Segment)
    ensures r.raw == segment
  {
    Segment(segment, AvgPitch(segment.pitches), Div(segment.start, trackDuration), segment.start * 1000.0)
  }

  function EnrichSection(section: RawSection, trackDuration: real): (r: Section)
    ensures r.raw == section
  {
    Section(section, Div(section.start, trackDuration),
            Div(section.start + section.duration, trackDuration))
  }

  // ----- The processing functions -----

  function ProcessBeats(analysis: RawAudioAnalysis): (r: seq<Beat>)
    ensures |r| == |analysis.beats|
    ensures forall i :: 0 <= i < |r| ==> r[i].raw == analysis.beats[i]
  {
    seq(|analysis.beats|, i requires 0 <= i < |analysis.beats| =>
      EnrichBeat(analysis.beats[i], analysis.track.duration))
  }

  function ProcessBars(analysis: RawAudioAnalysis): (r: seq<Bar>)
    ensures |r| == |analysis.bars|
    ensures forall i :: 0 <= i < |r| ==> r[i].raw == analysis.bars[i]
  {
    seq(|analysis.bars|, i requires 0 <= i < |analysis.bars| =>
      EnrichBar(analysis.bars[i], analysis.track.duration))
  }

  function ProcessSegments(analysis: RawAudioAnalysis): (r: seq<Segment>)
    ensures |r| == |analysis.segments|
    ensures forall i :: 0 <= i < |r| ==> r[i].raw == analysis.segments[i]
  {
    seq(|analysis.segments|, i requires 0 <= i < |analysis.segments| =>
      EnrichSegment(analysis.segments[i], analysis.track.duration))
  }

  function ProcessSections(analysis: RawAudioAnalysis): (r: seq<Section>)
    ensures |r| == |analysis.sections|
    ensures forall i :: 0 <= i < |r| ==> r[i].raw == analysis.sections[i]
  {
    seq(|analysis.sections|, i requires 0 <= i < |analysis.sections| =>
      EnrichSection(analysis.sections[i], analysis.track.duration))
  }

  function ProcessTrack(analysis: RawAudioAnalysis): (r: Track)
    ensures r.raw == analysis.track
    ensures |r.beatTimingsMs| == |analysis.beats|
  {
    Track(analysis.track,
          seq(|analysis.beats|, i requires 0 <= i < |analysis.beats| => analysis.beats[i].start * 1000.0))
  }

  function ProcessRawAnalysis(analysis: RawAudioAnalysis): (r: Analysis)
    ensures r.meta == analysis.meta && r.tatums == analysis.tatums && r.track.raw == analysis.track
  {
    Analysis(ProcessBars(analysis), ProcessBeats(analysis), analysis.meta,
             ProcessSections(analysis), ProcessSegments(analysis),
             analysis.tatums, ProcessTrack(analysis))
  }

  /** Forgets every derived field: the raw analysis an enriched one was built from. */
  function Strip(analysis: Analysis): RawAudioAnalysis
  {
    RawAudioAnalysis(
      seq(|analysis.bars|, i requires 0 <= i < |analysis.bars| => analysis.bars[i].raw),
      seq(|analysis.beats|, i requires 0 <= i < |analysis.beats| => analysis.beats[i].raw),
      analysis.meta,
      seq(|analysis.sections|, i requires 0 <= i < |analysis.sections| => analysis.sections[i].raw),
      seq(|analysis.segments|, i requires 0 <= i < |analysis.segments| => analysis.segments[i].raw),
      analysis.tatums,
      analysis.track.raw)
  }

  // ----- Properties -----

  /** Enrichment only adds fields: stripping them gives back the raw analysis, in the same order. */
  lemma EnrichmentRoundTrip(analysis: RawAudioAnalysis)
    ensures Strip(ProcessRawAnalysis(analysis)) == analysis
  {
    var s := Strip(ProcessRawAnalysis(analysis));
    assert s.bars == analysis.bars;
    assert s.beats == analysis.beats;
    assert s.sections == analysis.sections;
    assert s.segments == analysis.segments;
  }

  /** Each beat's progress is its start over the track's duration, and its start is also kept in milliseconds. */
  lemma BeatsEnriched(analysis: RawAudioAnalysis)
    ensures forall i :: 0 <= i < |analysis.beats| ==>
      var beat := ProcessBeats(analysis)[i];
      && beat.progressPct == Div(analysis.beats[i].start, analysis.track.duration)
      && beat.startMs / 1000.0 == analysis.beats[i].start
      && (analysis.track.duration != 0.0 ==>
            beat.progressPct.Finite? && beat.progressPct.value * analysis.track.duration == analysis.beats[i].start)
  {
  }

  /** Bars gain only their progress fraction. */
  lemma BarsEnriched(analysis: RawAudioAnalysis)
    ensures forall i :: 0 <= i < |analysis.bars| ==>
      ProcessBars(analysis)[i] == Bar(analysis.bars[i], Div(analysis.bars[i].start, analysis.track.duration))
  {
  }

  /**
   * A section's start and end fractions; with a non-zero track duration they
   * are finite and lie the section's share of the track apart.
   */
  lemma SectionsEnriched(analysis: RawAudioAnalysis)
    ensures forall i :: 0 <= i < |analysis.sections| ==>
      var section := ProcessSections(analysis)[i];
      && section.startProgressPct == Div(analysis.sections[i].start, analysis.track.duration)
      && (analysis.track.duration != 0.0 ==>
            && section.startProgressPct.Finite?
            && section.endProgressPct.Finite?
            && section.endProgressPct.value - section.startProgressPct.value
               == analysis.sections[i].duration / analysis.track.duration)
  {
    forall i | 0 <= i < |analysis.sections| && analysis.track.duration != 0.0
      ensures ProcessSections(analysis)[i].endProgressPct.value - ProcessSections(analysis)[i].startProgressPct.value
              == analysis.sections[i].duration / analysis.track.duration
    {
      var d := analysis.track.duration;
      var s := analysis.sections[i];
      DivDifference(s.start + s.duration, s.start, d);
    }
  }

  lemma DivDifference(x: real, y: real, d: real)
    requires d != 0.0
    ensures x / d - y / d == (x - y) / d
  {
  }

  /** Each segment is labelled with the arg-max of its pitches and gains progress and milliseconds. */
  lemma SegmentsEnriched(analysis: RawAudioAnalysis)
    ensures forall i :: 0 <= i < |analysis.segments| ==>
      ProcessSegments(analysis)[i] == Segment(
        analysis.segments[i], AvgPitch(analysis.segments[i].pitches),
        Div(analysis.segments[i].start, analysis.track.duration),
        analysis.segments[i].start * 1000.0)
  {
  }

  /** The track's beat timings are the beats' millisecond starts, one per beat, in beat order. */
  lemma BeatTimingsMatchBeats(analysis: RawAudioAnalysis)
    ensures |ProcessRawAnalysis(analysis).track.beatTimingsMs| == |ProcessRawAnalysis(analysis).beats|
    ensures forall i :: 0 <= i < |analysis.beats| ==>
      ProcessRawAnalysis(analysis).track.beatTimingsMs[i] == ProcessRawAnalysis(analysis).beats[i].startMs
  {
  }

  /** The fold keeps the largest pitch seen so far and the first index where it was seen. */
  lemma {:induction false} ReducePitchesIsPeak(pitches: seq<real>)
    ensures forall j :: 0 <= j < |pitches| ==> pitches[j] <= ReducePitches(pitches).conf
    ensures forall j :: 0 <= j < ReducePitches(pitches).i ==> pitches[j] < ReducePitches(pitches).conf
  {
    if |pitches| > 0 {
      var prefix := pitches[..|pitches| - 1];
      ReducePitchesIsPeak(prefix);
      assert forall j :: 0 <= j < |prefix| ==> pitches[j] == prefix[j];
    }
  }

  /**
   * `avgPitch` is the first index of the largest pitch when some pitch is
   * positive, and 0 when none is (which covers the empty vector).
   */
  lemma AvgPitchIsFirstMaximum(pitches: seq<real>)
    ensures (exists j :: 0 <= j < |pitches| && pitches[j] > 0.0) ==> IsFirstMaximum(pitches, AvgPitch(pitches))
    ensures (forall j :: 0 <= j < |pitches| ==> pitches[j] <= 0.0) ==> AvgPitch(pitches) == 0
  {
    ReducePitchesIsPeak(pitches);
  }

  /** The first maximum is unique, so the lemma above pins `avgPitch` down. */
  lemma FirstMaximumUnique(pitches: seq<real>, k: nat, k': nat)
    requires IsFirstMaximum(pitches, k) && IsFirstMaximum(pitches, k')
    ensures k == k'
  {
    assert pitches[k] <= pitches[k'] && pitches[k'] <= pitches[k];
  }

  /** Ties go to the first occurrence. */
  lemma AvgPitchTieBreak()
    ensures AvgPitch([0.5, 0.9, 0.9, 0.1]) == 1
  {
    var p := [0.5, 0.9, 0.9, 0.1];
    AvgPitchIsFirstMaximum(p);
    assert p[1] > 0.0;
    assert IsFirstMaximum(p, 1);
    FirstMaximumUnique(p, AvgPitch(p), 1);
  }

  /** Starts in ascending order, as the analysis service delivers them. */
  ghost predicate Ascending(starts: seq<real>)
  {
    forall i, j :: 0 <= i < j < |starts| ==> starts[i] <= starts[j]
  }

  /** Progress fractions are finite and in ascending order. */
  ghost predicate ProgressAscending(progress: seq<Num>)
  {
    && (forall i :: 0 <= i < |progress| ==> progress[i].Finite?)
    && (forall i, j :: 0 <= i < j < |progress| ==> progress[i].value <= progress[j].value)
  }

  /** The start times of a list of beats, bars or tatums. */
  function EventStarts(events: seq<TimedEvent>): seq<real>
  {
    seq(|events|, i requires 0 <= i < |events| => events[i].start)
  }

  function BeatProgress(beats: seq<Beat>): seq<Num>
  {
    seq(|beats|, i requires 0 <= i < |beats| => beats[i].progressPct)
  }

  function BarProgress(bars: seq<Bar>): seq<Num>
  {
    seq(|bars|, i requires 0 <= i < |bars| => bars[i].progressPct)
  }

  function SegmentStarts(segments: seq<RawSegment>): seq<real>
  {
    seq(|segments|, i requires 0 <= i < |segments| => segments[i].start)
  }

  function SegmentProgress(segments: seq<Segment>): seq<Num>
  {
    seq(|segments|, i requires 0 <= i < |segments| => segments[i].progressPct)
  }

  function SectionStarts(sections: seq<RawSection>): seq<real>
  {
    seq(|sections|, i requires 0 <= i < |sections| => sections[i].start)
  }

  function SectionProgress(sections: seq<Section>): seq<Num>
  {
    seq(|sections|, i requires 0 <= i < |sections| => sections[i].startProgressPct)
  }

  /** Dividing by a positive duration keeps the order of starts. */
  lemma DivMonotone(x: real, y: real, d: real)
    requires d > 0.0 && x <= y
    ensures Div(x, d).Finite? && Div(y, d).Finite? && Div(x, d).value <= Div(y, d).value
  {
    var qx, qy := x / d, y / d;
    assert (qy - qx) * d == y - x;
    NonNegativeFactor(qy - qx, d);
  }

  lemma NonNegativeFactor(u: real, d: real)
    requires d > 0.0 && u * d >= 0.0
    ensures u >= 0.0
  {
  }

  /**
   * Dividing ascending starts by one positive duration gives finite,
   * ascending fractions: the argument behind each of the four lemmas below.
   */
  lemma QuotientsAscending(starts: seq<real>, progress: seq<Num>, duration: real)
    requires duration > 0.0 && Ascending(starts) && |progress| == |starts|
    requires forall i :: 0 <= i < |progress| ==> progress[i] == Div(starts[i], duration)
    ensures ProgressAscending(progress)
  {
    forall i, j | 0 <= i < j < |progress|
      ensures progress[i].Finite? && progress[j].Finite? && progress[i].value <= progress[j].value
    {
      DivMonotone(starts[i], starts[j], duration);
    }
  }

  /** With a positive track duration, ascending beat starts give ascending beat progress. */
  lemma BeatProgressAscending(analysis: RawAudioAnalysis)
    requires analysis.track.duration > 0.0 && Ascending(EventStarts(analysis.beats))
    ensures ProgressAscending(BeatProgress(ProcessBeats(analysis)))
  {
    QuotientsAscending(EventStarts(analysis.beats), BeatProgress(ProcessBeats(analysis)), analysis.track.duration);
  }

  /** The same for bars. */
  lemma BarProgressAscending(analysis: RawAudioAnalysis)
    requires analysis.track.duration > 0.0 && Ascending(EventStarts(analysis.bars))
    ensures ProgressAscending(BarProgress(ProcessBars(analysis)))
  {
    QuotientsAscending(EventStarts(analysis.bars), BarProgress(ProcessBars(analysis)), analysis.track.duration);
  }

  /** The same for segments. */
  lemma SegmentProgressAscending(analysis: RawAudioAnalysis)
    requires analysis.track.duration > 0.0 && Ascending(SegmentStarts(analysis.segments))
    ensures ProgressAscending(SegmentProgress(ProcessSegments(analysis)))
  {
    QuotientsAscending(SegmentStarts(analysis.segments), SegmentProgress(ProcessSegments(analysis)),
                       analysis.track.duration);
  }

  /** The same for the start fractions of sections. */
  lemma SectionProgressAscending(analysis: RawAudioAnalysis)
    requires analysis.track.duration > 0.0 && Ascending(SectionStarts(analysis.sections))
    ensures ProgressAscending(SectionProgress(ProcessSections(analysis)))
  {
    QuotientsAscending(SectionStarts(analysis.sections), SectionProgress(ProcessSections(analysis)),
                       analysis.track.duration);
  }

  /** An event that starts within the track has a progress fraction in [0, 1]. */
  lemma ProgressWithinTrack(start: real, trackDuration: real)
    requires trackDuration > 0.0 && 0.0 <= start <= trackDuration
    ensures Div(start, trackDuration).Finite?
    ensures 0.0 <= Div(start, trackDuration).value <= 1.0
  {
    DivMonotone(0.0, start, trackDuration);
    DivMonotone(start, trackDuration, trackDuration);
  }
}
