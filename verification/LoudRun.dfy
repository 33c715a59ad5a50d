// A run of the G.721 encoder, from the initial state on samples of the 14-bit range, that its decoder does not
// follow: 8.5 ms of a signal at full scale with four samples that differ. After 67 samples the sum of the
// estimates leaves the range of a C short. Each row is one step in numbers.
module LoudRun {
  import opened G72x
  import opened G72xInvariant
  import opened G72xCoder
  import opened Quantiser
  import opened G721Steps

  // The i-th of 68 samples.
  function Sample(i: nat): int {
    match i
    case 51 => 7000
    case 59 => -8192
    case 60 => -8192
    case 65 => -8192
    case _ => 8191
  }

  lemma Samples()
    ensures Sample(51) == 7000 && Sample(59) == Sample(60) == Sample(65) == -8192
    ensures forall i: nat | i !in {51, 59, 60, 65} :: Sample(i) == 8191
  {}

  function From(i: nat): (xs: seq<int>)
    requires i <= 68
    ensures |xs| == 68 - i && forall x | x in xs :: -8192 <= x <= 8191
    decreases 68 - i
  {
    if i == 68 then [] else [Sample(i)] + From(i + 1)
  }

  // Somewhere on the rest of the run the estimates do not fit.
  predicate Loses(v: Voice, i: nat) {
    i <= 68 && !AlwaysFits(G721, v.Full(), From(i))
  }

  lemma Before(v: Voice, n: Voice, i: nat)
    requires Leads(v, Sample(i), n) && Loses(n, i + 1)
    ensures Loses(v, i)
  {
    hide Encode, Fits;
    var xs := From(i);
    assert xs[0] == Sample(i) && xs[1..] == From(i + 1);
  }

  // A decoder that is fed the codes of this run leaves the encoder's states or signals.
  lemma LockstepLost()
    ensures |From(0)| == 68 && forall x | x in From(0) :: -8192 <= x <= 8191
    ensures DecodeRun(G721, INIT, EncodedCodes(G721, INIT, From(0))) != EncodeRun(G721, INIT, From(0))
  {
    assert !AlwaysFits(G721, INIT, From(0)) by {
      Lost();
      Start();
      hide *;
    }
    InitInv();
    hide DecodeRun, EncodedCodes, EncodeRun, Inv, From, AlwaysFits;
    Lockstep(G721, INIT, From(0));
  }

  lemma Start()
    ensures V0().Full() == INIT
  {}

  // So a state in which the estimates do not fit is reached from the initial one.
  lemma UnfitReached()
    ensures exists ops :: !Fits(Run(ops))
  {
    assert !AlwaysFits(G721, Run([]), From(0)) by {
      Lost();
      Start();
      hide *;
      assert Run([]) == INIT by {
        EmptyRun();
      }
    }
    UnfitAfter([], From(0));
  }

  lemma EmptyRun()
    ensures Run([]) == INIT
  {}

  lemma {:induction false} UnfitAfter(ops: seq<Op>, xs: seq<int>)
    requires !AlwaysFits(G721, Run(ops), xs)
    ensures exists more :: !Fits(Run(more))
    decreases |xs|
  {
    if Fits(Run(ops)) {
      var more := ops + [Enc(G721, xs[0])];
      assert Run(more) == Encode(G721, Run(ops), xs[0]).next by {
        assert more[..|more| - 1] == ops;
        hide Encode, Fits;
      }
      hide Encode, Fits, Run;
      UnfitAfter(more, xs[1..]);
    }
  }

  // ----- The rows -----

  lemma Lost()
    ensures Loses(V0(), 0)
  {
    hide *;
    Samples();
    Row67();
    Row66(); Before(V66(), V67(), 66);
    Row65(); Before(V65(), V66(), 65);
    Row64(); Before(V64(), V65(), 64);
    Row63(); Before(V63(), V64(), 63);
    Row62(); Before(V62(), V63(), 62);
    Row61(); Before(V61(), V62(), 61);
    Row60(); Before(V60(), V61(), 60);
    Row59(); Before(V59(), V60(), 59);
    Row58(); Before(V58(), V59(), 58);
    Row57(); Before(V57(), V58(), 57);
    Row56(); Before(V56(), V57(), 56);
    Row55(); Before(V55(), V56(), 55);
    Row54(); Before(V54(), V55(), 54);
    Row53(); Before(V53(), V54(), 53);
    Row52(); Before(V52(), V53(), 52);
    Row51(); Before(V51(), V52(), 51);
    Row50(); Before(V50(), V51(), 50);
    Row49(); Before(V49(), V50(), 49);
    Row48(); Before(V48(), V49(), 48);
    Row47(); Before(V47(), V48(), 47);
    Row46(); Before(V46(), V47(), 46);
    Row45(); Before(V45(), V46(), 45);
    Row44(); Before(V44(), V45(), 44);
    Row43(); Before(V43(), V44(), 43);
    Row42(); Before(V42(), V43(), 42);
    Row41(); Before(V41(), V42(), 41);
    Row40(); Before(V40(), V41(), 40);
    Row39(); Before(V39(), V40(), 39);
    Row38(); Before(V38(), V39(), 38);
    Row37(); Before(V37(), V38(), 37);
    Row36(); Before(V36(), V37(), 36);
    Row35(); Before(V35(), V36(), 35);
    Row34(); Before(V34(), V35(), 34);
    Row33(); Before(V33(), V34(), 33);
    Row32(); Before(V32(), V33(), 32);
    Row31(); Before(V31(), V32(), 31);
    Row30(); Before(V30(), V31(), 30);
    Row29(); Before(V29(), V30(), 29);
    Row28(); Before(V28(), V29(), 28);
    Row27(); Before(V27(), V28(), 27);
    Row26(); Before(V26(), V27(), 26);
    Row25(); Before(V25(), V26(), 25);
    Row24(); Before(V24(), V25(), 24);
    Row23(); Before(V23(), V24(), 23);
    Row22(); Before(V22(), V23(), 22);
    Row21(); Before(V21(), V22(), 21);
    Row20(); Before(V20(), V21(), 20);
    Row19(); Before(V19(), V20(), 19);
    Row18(); Before(V18(), V19(), 18);
    Row17(); Before(V17(), V18(), 17);
    Row16(); Before(V16(), V17(), 16);
    Row15(); Before(V15(), V16(), 15);
    Row14(); Before(V14(), V15(), 14);
    Row13(); Before(V13(), V14(), 13);
    Row12(); Before(V12(), V13(), 12);
    Row11(); Before(V11(), V12(), 11);
    Row10(); Before(V10(), V11(), 10);
    Row9(); Before(V9(), V10(), 9);
    Row8(); Before(V8(), V9(), 8);
    Row7(); Before(V7(), V8(), 7);
    Row6(); Before(V6(), V7(), 6);
    Row5(); Before(V5(), V6(), 5);
    Row4(); Before(V4(), V5(), 4);
    Row3(); Before(V3(), V4(), 3);
    Row2(); Before(V2(), V3(), 2);
    Row1(); Before(V1(), V2(), 1);
    Row0(); Before(V0(), V1(), 0);
  }

  function V0(): Voice {
    Voice(34816, 544, 0, 0, 0, 0, 0, 0, 0, 0, 0, 0, 0, 0, 0, 32, 32, 32, 32, 32, 32, 32, 32)
  }

  lemma Row0()
    ensures Leads(V0(), 8191, V1())
  {
    hide Leads, Predicted, Quantize, Reconstruct, Float;
    var o := O(false, 7, 544, 0, 0, 0, 22, 22, 22);
    PredictedBy(V0(), o, F(0, 32, 67, 0), F(0, 32, 67, 0), F(0, 32, 67, 0), F(0, 32, 67, 0),
      F(0, 32, 67, 0), F(0, 32, 67, 0), F(0, 32, 67, 0), F(0, 32, 67, 0));
    LevelBy(8191, 544, 8191, 12, 1527, 7);
    DifferenceBy(false, 7, 544, 561, 22);
    FloatBy(22, 5, 364);
    StepIs(V0(), V1(), 8191, o);
  }

  function V1(): Voice {
    Voice(35921, 1649, 112, 112, 32, 192, 128, 128, 128, 128, 128, 128, 128, 0, 0, 364, 32, 32, 32, 32, 32, 364, 32)
  }

  lemma Row1()
    ensures Leads(V1(), 8191, V2())
  {
    hide Leads, Predicted, Quantize, Reconstruct, Float;
    var o := O(false, 7, 697, 0, 0, 0, 26, 26, 26);
    PredictedBy(V1(), o, F(6, 32, 91, 0), F(6, 32, 67, 0), F(6, 32, 67, 0), F(6, 32, 67, 0),
      F(6, 32, 67, 0), F(6, 32, 67, 0), F(6, 48, 135, 0), F(6, 32, 67, 0));
    LevelBy(8191, 697, 8191, 12, 1489, 7);
    DifferenceBy(false, 7, 697, 599, 26);
    FloatBy(26, 5, 372);
    StepIs(V1(), V2(), 8191, o);
  }

  function V2(): Voice {
    Voice(37156, 1797, 220, 223, 62, 384, 249, 256, 256, 256, 256, 256, 256, 0, 0, 372, 364, 32, 32, 32, 32, 372, 364)
  }

  lemma Row2()
    ensures Leads(V2(), 8191, V3())
  {
    hide Leads, Predicted, Quantize, Reconstruct, Float;
    var o := O(false, 7, 865, 0, 1, 0, 32, 32, 32);
    PredictedBy(V2(), o, F(7, 32, 107, 0), F(7, 32, 91, 0), F(7, 32, 67, 0), F(7, 32, 67, 0),
      F(7, 32, 67, 0), F(7, 32, 67, 0), F(7, 48, 159, 1), F(6, 62, 173, 0));
    LevelBy(8191, 865, 8191, 12, 1447, 7);
    DifferenceBy(false, 7, 865, 641, 32);
    FloatBy(32, 6, 416);
    StepIs(V2(), V3(), 8191, o);
  }

  function V3(): Voice {
    Voice(38534, 1959, 325, 333, 90, 575, 364, 383, 383, 383, 383, 383, 383, 0, 0, 416, 372, 364, 32, 32, 32, 416, 372)
  }

  lemma Row3()
    ensures Leads(V3(), 8191, V4())
  {
    hide Leads, Predicted, Quantize, Reconstruct, Float;
    var o := O(false, 7, 1068, 3, 3, 3, 45, 48, 46);
    PredictedBy(V3(), o, F(7, 47, 97, 1), F(7, 47, 155, 1), F(7, 47, 132, 1), F(7, 47, 97, 0),
      F(7, 47, 97, 0), F(7, 47, 97, 0), F(8, 35, 73, 2), F(7, 45, 149, 1));
    LevelBy(8188, 1068, 8188, 12, 1396, 7);
    DifferenceBy(false, 7, 1068, 692, 45);
    FloatBy(45, 6, 429);
    FloatBy(48, 6, 432);
    StepIs(V3(), V4(), 8191, o);
  }

  function V4(): Voice {
    Voice(40087, 2156, 426, 442, 116, 765, 472, 510, 510, 510, 510, 510, 510, 0, 0, 429, 416, 372, 364, 32, 32, 432, 416)
  }

  lemma Row4()
    ensures Leads(V4(), 8191, V5())
  {
    hide Leads, Predicted, Quantize, Reconstruct, Float;
    var o := O(false, 7, 1319, 6, 5, 5, 60, 65, 63);
    PredictedBy(V4(), o, F(7, 63, 180, 2), F(7, 63, 129, 2), F(7, 63, 207, 1), F(7, 63, 176, 1),
      F(7, 63, 129, 0), F(7, 63, 129, 0), F(8, 47, 144, 4), F(7, 59, 121, 1));
    LevelBy(8186, 1319, 8186, 12, 1334, 7);
    DifferenceBy(false, 7, 1319, 754, 60);
    FloatBy(60, 6, 444);
    FloatBy(65, 7, 480);
    StepIs(V4(), V5(), 8191, o);
  }

  function V5(): Voice {
    Voice(41859, 2399, 524, 550, 140, 955, 573, 637, 637, 637, 637, 637, 637, 0, 0, 444, 429, 416, 372, 364, 32, 480, 432)
  }

  lemma Row5()
    ensures Leads(V5(), 8191, V6())
  {
    hide Leads, Predicted, Quantize, Reconstruct, Float;
    var o := O(false, 7, 1608, 12, 10, 11, 93, 104, 99);
    PredictedBy(V5(), o, F(8, 39, 149, 4), F(8, 39, 112, 3), F(8, 39, 81, 2), F(8, 39, 129, 2),
      F(8, 39, 110, 1), F(8, 39, 81, 0), F(8, 59, 121, 7), F(8, 35, 108, 3));
    LevelBy(8180, 1608, 8180, 12, 1261, 7);
    DifferenceBy(false, 7, 1608, 827, 93);
    FloatBy(93, 7, 494);
    FloatBy(104, 7, 500);
    StepIs(V5(), V6(), 8191, o);
  }

  function V6(): Voice {
    Voice(43883, 2679, 619, 657, 163, 1144, 667, 763, 763, 763, 763, 763, 763, 0, 0, 494, 444, 429, 416, 372, 364, 500, 480)
  }

  lemma Row6()
    ensures Leads(V6(), 8191, V7())
  {
    hide Leads, Predicted, Quantize, Reconstruct, Float;
    var o := O(false, 7, 1931, 24, 19, 21, 139, 160, 151);
    PredictedBy(V6(), o, F(8, 47, 138, 8), F(8, 47, 179, 5), F(8, 47, 135, 4), F(8, 47, 97, 3),
      F(8, 47, 155, 2), F(8, 47, 132, 2), F(9, 35, 116, 14), F(8, 41, 85, 5));
    LevelBy(8170, 1931, 8170, 12, 1181, 7);
    DifferenceBy(false, 7, 1931, 907, 139);
    FloatBy(139, 8, 546);
    FloatBy(160, 8, 552);
    StepIs(V6(), V7(), 8191, o);
  }

  function V7(): Voice {
    Voice(46189, 2992, 711, 763, 184, 1332, 754, 889, 889, 889, 889, 889, 889, 0, 0, 546, 494, 444, 429, 416, 372, 552, 500)
  }

  lemma Row7()
    ensures Leads(V7(), 8191, V8())
  {
    hide Leads, Predicted, Quantize, Reconstruct, Float;
    var o := O(false, 7, 2353, 39, 35, 37, 245, 282, 264);
    PredictedBy(V7(), o, F(8, 55, 119, 14), F(8, 55, 161, 10), F(8, 55, 209, 6), F(8, 55, 157, 4),
      F(8, 55, 113, 3), F(8, 55, 181, 2), F(9, 41, 105, 26), F(8, 47, 155, 9));
    LevelBy(8154, 2353, 8154, 12, 1074, 7);
    DifferenceBy(false, 7, 2353, 1013, 245);
    FloatBy(245, 8, 573);
    FloatBy(282, 9, 611);
    StepIs(V7(), V8(), 8191, o);
  }

  function V8(): Voice {
    Voice(48868, 3401, 800, 869, 204, 1519, 835, 1014, 1014, 1014, 1014, 1014, 1014, 0, 0, 573, 546, 494, 444, 429, 416, 611, 552)
  }

  lemma Row8()
    ensures Leads(V8(), 8191, V9())
  {
    hide Leads, Predicted, Quantize, Reconstruct, Float;
    var o := O(false, 7, 2865, 74, 68, 71, 490, 561, 527);
    PredictedBy(V8(), o, F(8, 63, 243, 30), F(8, 63, 136, 17), F(8, 63, 184, 11), F(8, 63, 239, 7),
      F(8, 63, 180, 5), F(8, 63, 129, 4), F(9, 47, 105, 52), F(8, 52, 133, 16));
    LevelBy(8120, 2865, 8120, 12, 945, 7);
    DifferenceBy(false, 7, 2865, 1141, 490);
    FloatBy(490, 9, 637);
    FloatBy(561, 10, 675);
    StepIs(V8(), V9(), 8191, o);
  }

  function V9(): Voice {
    Voice(52001, 3897, 887, 974, 223, 1706, 909, 1139, 1139, 1139, 1139, 1139, 1139, 0, 0, 637, 573, 546, 494, 444, 429, 675, 611)
  }

  lemma Row9()
    ensures Leads(V9(), 8191, V10())
  {
    hide Leads, Predicted, Quantize, Reconstruct, Float;
    var o := O(false, 7, 3463, 147, 149, 148, 1104, 1252, 1177);
    PredictedBy(V9(), o, F(9, 35, 136, 68), F(9, 35, 136, 34), F(9, 35, 77, 19), F(9, 35, 103, 12),
      F(9, 35, 134, 8), F(9, 35, 101, 6), F(9, 53, 118, 118), F(8, 56, 125, 31));
    LevelBy(8043, 3463, 8043, 12, 794, 7);
    DifferenceBy(false, 7, 3463, 1290, 1104);
    FloatBy(1104, 11, 738);
    FloatBy(1252, 11, 743);
    StepIs(V9(), V10(), 8191, o);
  }

  function V10(): Voice {
    Voice(55664, 4476, 971, 1078, 241, 1892, 976, 1263, 1263, 1263, 1263, 1263, 1263, 0, 0, 738, 637, 573, 546, 494, 444, 743, 675)
  }

  lemma Row10()
    ensures Leads(V10(), 8191, V11())
  {
    hide Leads, Predicted, Quantize, Reconstruct, Float;
    var o := O(false, 7, 4250, 326, 360, 343, 3312, 3655, 3475);
    PredictedBy(V10(), o, F(9, 39, 85, 170), F(9, 39, 151, 75), F(9, 39, 151, 37), F(9, 39, 85, 21),
      F(9, 39, 115, 14), F(9, 39, 149, 9), F(9, 59, 146, 292), F(8, 61, 136, 68));
    LevelBy(7848, 4250, 7848, 12, 591, 7);
    DifferenceBy(false, 7, 4250, 1487, 3312);
    FloatBy(3312, 12, 819);
    FloatBy(3655, 12, 825);
    StepIs(V10(), V11(), 8191, o);
  }

  function V11(): Voice {
    Voice(59914, 5120, 1052, 1181, 257, 2077, 1037, 1387, 1387, 1387, 1387, 1387, 1387, 0, 0, 819, 738, 637, 573, 546, 494, 825, 743)
  }

  lemma Row11()
    ensures Leads(V11(), 8191, V12())
  {
    hide Leads, Predicted, Quantize, Reconstruct, Float;
    var o := O(false, 6, 5120, 910, 1098, 1004, 7840, 8844, 8295);
    PredictedBy(V11(), o, F(9, 43, 140, 560), F(9, 43, 94, 188), F(9, 43, 166, 83), F(9, 43, 166, 41),
      F(9, 43, 94, 23), F(9, 43, 126, 15), F(10, 32, 117, 936), F(9, 32, 81, 162));
    LevelBy(7187, 5120, 7187, 12, 352, 6);
    DifferenceBy(false, 6, 5120, 1653, 7840);
    FloatBy(7840, 13, 893);
    FloatBy(8844, 14, 930);
    StepIs(V11(), V12(), 8191, o);
  }

  function V12(): Voice {
    Voice(64097, 5120, 1067, 1219, 272, 2261, 1092, 1510, 1510, 1510, 1510, 1510, 1510, 0, 0, 893, 819, 738, 637, 573, 546, 930, 825)
  }

  lemma Row12()
    ensures Leads(V12(), 8191, V13())
  {
    hide Leads, Predicted, Quantize, Reconstruct, Float;
    var o := O(false, 4, 5120, 2429, 2960, 2694, 4640, 7334, 5854);
    PredictedBy(V12(), o, F(9, 47, 182, 1456), F(9, 47, 152, 608), F(9, 47, 102, 204), F(9, 47, 182, 91),
      F(9, 47, 182, 45), F(9, 47, 102, 25), F(10, 35, 77, 2464), F(9, 34, 124, 496));
    LevelBy(5497, 5120, 5497, 12, 299, 4);
    DifferenceBy(false, 4, 5120, 1553, 4640);
    FloatBy(4640, 13, 868);
    FloatBy(7334, 13, 889);
    StepIs(V12(), V13(), 8191, o);
  }

  function V13(): Voice {
    Voice(68167, 5072, 1049, 1225, 287, 2445, 1141, 1633, 1633, 1633, 1633, 1633, 1633, 0, 0, 868, 893, 819, 738, 637, 573, 889, 930)
  }

  lemma Row13()
    ensures Leads(V13(), 8191, V14())
  {
    hide Leads, Predicted, Quantize, Reconstruct, Float;
    var o := O(false, 4, 5072, 3541, 3440, 3490, 4256, 7746, 6026);
    PredictedBy(V13(), o, F(9, 51, 117, 936), F(9, 51, 197, 1576), F(9, 51, 165, 660), F(9, 51, 111, 222),
      F(9, 51, 197, 98), F(9, 51, 197, 49), F(10, 38, 138, 2208), F(9, 35, 77, 1232));
    LevelBy(4701, 5072, 4701, 12, 286, 4);
    DifferenceBy(false, 4, 5072, 1541, 4256);
    FloatBy(4256, 13, 865);
    FloatBy(7746, 13, 892);
    StepIs(V13(), V14(), 8191, o);
  }

  function V14(): Voice {
    Voice(72126, 5025, 1032, 1231, 301, 2628, 1184, 1755, 1755, 1755, 1755, 1755, 1755, 0, 0, 865, 868, 893, 819, 738, 637, 892, 889)
  }

  lemma Row14()
    ensures Leads(V14(), 8191, V15())
  {
    hide Leads, Predicted, Quantize, Reconstruct, Float;
    var o := O(false, 4, 5025, 4606, 3568, 4087, 3984, 8071, 6287);
    PredictedBy(V14(), o, F(9, 54, 114, 912), F(9, 54, 124, 992), F(9, 54, 208, 1664), F(9, 54, 175, 700),
      F(9, 54, 117, 234), F(9, 54, 208, 104), F(10, 41, 156, 2496), F(9, 37, 134, 1072));
    LevelBy(4104, 5025, 4104, 12, 280, 4);
    DifferenceBy(false, 4, 5025, 1529, 3984);
    FloatBy(3984, 12, 830);
    FloatBy(8071, 13, 895);
    StepIs(V14(), V15(), 8191, o);
  }

  function V15(): Voice {
    Voice(75978, 4979, 1015, 1237, 314, 2810, 1220, 1877, 1877, 1877, 1877, 1877, 1877, 0, 0, 830, 865, 868, 893, 819, 738, 895, 892)
  }

  lemma Row15()
    ensures Leads(V15(), 8191, V16())
  {
    hide Leads, Predicted, Quantize, Reconstruct, Float;
    var o := O(false, 4, 4979, 5740, 3912, 4826, 3792, 8618, 6662);
    PredictedBy(V15(), o, F(9, 58, 227, 908), F(9, 58, 122, 976), F(9, 58, 133, 1064), F(9, 58, 224, 1792),
      F(9, 58, 187, 748), F(9, 58, 126, 252), F(10, 43, 172, 2752), F(9, 38, 145, 1160));
    LevelBy(3365, 4979, 3365, 11, 246, 4);
    DifferenceBy(false, 4, 4979, 1517, 3792);
    FloatBy(3792, 12, 827);
    FloatBy(8618, 14, 929);
    StepIs(V15(), V16(), 8191, o);
  }

  function V16(): Voice {
    Voice(79725, 4935, 999, 1243, 326, 2992, 1251, 1998, 1998, 1998, 1998, 1998, 1998, 0, 0, 827, 830, 865, 868, 893, 819, 929, 895)
  }

  lemma Row16()
    ensures Leads(V16(), 8191, V17())
  {
    hide Leads, Predicted, Quantize, Reconstruct, Float;
    var o := O(false, 3, 4935, 6784, 4352, 5568, 2656, 8224, 6048);
    PredictedBy(V16(), o, F(9, 62, 231, 924), F(9, 62, 243, 972), F(9, 62, 130, 1040), F(9, 62, 142, 1136),
      F(9, 62, 239, 1912), F(9, 62, 200, 800), F(10, 46, 97, 3104), F(9, 39, 156, 1248));
    LevelBy(2623, 4935, 2623, 11, 210, 3);
    DifferenceBy(false, 3, 4935, 1446, 2656);
    FloatBy(2656, 12, 809);
    FloatBy(8224, 14, 928);
    StepIs(V16(), V17(), 8191, o);
  }

  function V17(): Voice {
    Voice(83323, 4844, 983, 1249, 337, 3173, 1276, 2119, 2119, 2119, 2119, 2119, 2119, 0, 0, 809, 827, 830, 865, 868, 893, 928, 929)
  }

  lemma Row17()
    ensures Leads(V17(), 8191, V18())
  {
    hide Leads, Predicted, Quantize, Reconstruct, Float;
    var o := O(false, 3, 4844, 7144, 4560, 5852, 2304, 8156, 5876);
    PredictedBy(V17(), o, F(10, 33, 87, 696), F(10, 33, 124, 992), F(10, 33, 130, 1040), F(10, 33, 71, 1136),
      F(10, 33, 77, 1232), F(10, 33, 128, 2048), F(10, 49, 101, 3232), F(9, 39, 83, 1328));
    LevelBy(2339, 4844, 2339, 11, 215, 3);
    DifferenceBy(false, 3, 4844, 1424, 2304);
    FloatBy(2304, 12, 804);
    FloatBy(8156, 13, 895);
    StepIs(V17(), V18(), 8191, o);
  }

  function V18(): Voice {
    Voice(86777, 4756, 968, 1255, 347, 3353, 1295, 2239, 2239, 2239, 2239, 2239, 2239, 0, 0, 804, 809, 827, 830, 865, 868, 895, 928)
  }

  lemma Row18()
    ensures Leads(V18(), 8191, V19())
  {
    hide Leads, Predicted, Quantize, Reconstruct, Float;
    var o := O(false, 4, 4756, 5880, 4640, 5260, 2912, 8172, 5852);
    PredictedBy(V18(), o, F(10, 34, 79, 632), F(10, 34, 90, 720), F(10, 34, 128, 1024), F(10, 34, 134, 1072),
      F(10, 34, 73, 1168), F(10, 34, 79, 1264), F(10, 52, 207, 3312), F(9, 40, 83, 1328));
    LevelBy(2931, 4756, 2931, 11, 274, 4);
    DifferenceBy(false, 4, 4756, 1462, 2912);
    FloatBy(2912, 12, 813);
    FloatBy(8172, 13, 895);
    StepIs(V18(), V19(), 8191, o);
  }

  function V19(): Voice {
    Voice(90140, 4719, 953, 1261, 357, 3532, 1308, 2359, 2359, 2359, 2359, 2359, 2359, 0, 0, 813, 804, 809, 827, 830, 865, 895, 895)
  }

  lemma Row19()
    ensures Leads(V19(), 8191, V20())
  {
    hide Leads, Predicted, Quantize, Reconstruct, Float;
    var o := O(false, 4, 4719, 5712, 4784, 5248, 2752, 8000, 5608);
    PredictedBy(V19(), o, F(10, 36, 104, 832), F(10, 36, 84, 672), F(10, 36, 95, 760), F(10, 36, 135, 1080),
      F(10, 36, 142, 1136), F(10, 36, 77, 1232), F(10, 55, 219, 3504), F(9, 40, 160, 1280));
    LevelBy(2943, 4719, 2943, 11, 284, 4);
    DifferenceBy(false, 4, 4719, 1452, 2752);
    FloatBy(2752, 12, 811);
    FloatBy(8000, 13, 894);
    StepIs(V19(), V20(), 8191, o);
  }

  function V20(): Voice {
    Voice(93414, 4683, 939, 1267, 366, 3711, 1315, 2478, 2478, 2478, 2478, 2478, 2478, 0, 0, 811, 813, 804, 809, 827, 830, 894, 895)
  }

  lemma Row20()
    ensures Leads(V20(), 8191, V21())
  {
    hide Leads, Predicted, Quantize, Reconstruct, Float;
    var o := O(false, 4, 4683, 5560, 4880, 5220, 2608, 7828, 5388);
    PredictedBy(V20(), o, F(10, 38, 105, 840), F(10, 38, 109, 872), F(10, 38, 88, 704), F(10, 38, 100, 800),
      F(10, 38, 143, 1144), F(10, 38, 150, 1200), F(10, 57, 223, 3568), F(9, 41, 164, 1312));
    LevelBy(2971, 4683, 2971, 11, 295, 4);
    DifferenceBy(false, 4, 4683, 1443, 2608);
    FloatBy(2608, 12, 808);
    FloatBy(7828, 13, 893);
    StepIs(V20(), V21(), 8191, o);
  }

  function V21(): Voice {
    Voice(96602, 4648, 925, 1273, 375, 3889, 1317, 2597, 2597, 2597, 2597, 2597, 2597, 0, 0, 808, 811, 813, 804, 809, 827, 893, 894)
  }

  lemma Row21()
    ensures Leads(V21(), 8191, V22())
  {
    hide Leads, Predicted, Quantize, Reconstruct, Float;
    var o := O(false, 5, 4648, 5408, 4984, 5196, 3280, 8476, 5984);
    PredictedBy(V21(), o, F(10, 40, 103, 824), F(10, 40, 110, 880), F(10, 40, 115, 920), F(10, 40, 93, 744),
      F(10, 40, 105, 840), F(10, 40, 150, 1200), F(10, 60, 231, 3696), F(9, 41, 161, 1288));
    LevelBy(2995, 4648, 2995, 11, 305, 5);
    DifferenceBy(false, 5, 4648, 1485, 3280);
    FloatBy(3280, 12, 819);
    FloatBy(8476, 14, 929);
    StepIs(V21(), V22(), 8191, o);
  }

  function V22(): Voice {
    Voice(99792, 4700, 912, 1279, 383, 4066, 1313, 2715, 2715, 2715, 2715, 2715, 2715, 0, 0, 819, 808, 811, 813, 804, 809, 929, 893)
  }

  lemma Row22()
    ensures Leads(V22(), 8191, V23())
  {
    hide Leads, Predicted, Quantize, Reconstruct, Float;
    var o := O(false, 4, 4700, 5496, 5496, 5496, 2688, 8184, 5436);
    PredictedBy(V22(), o, F(10, 42, 136, 1088), F(10, 42, 108, 864), F(10, 42, 115, 920), F(10, 42, 121, 968),
      F(10, 42, 97, 776), F(10, 42, 110, 880), F(10, 63, 132, 4224), F(9, 41, 159, 1272));
    LevelBy(2695, 4700, 2695, 11, 273, 4);
    DifferenceBy(false, 4, 4700, 1448, 2688);
    FloatBy(2688, 12, 810);
    FloatBy(8184, 13, 895);
    StepIs(V22(), V23(), 8191, o);
  }

  function V23(): Voice {
    Voice(102897, 4665, 899, 1285, 391, 4243, 1303, 2833, 2833, 2833, 2833, 2833, 2833, 0, 0, 810, 819, 808, 811, 813, 804, 895, 929)
  }

  lemma Row23()
    ensures Leads(V23(), 8191, V24())
  {
    hide Leads, Predicted, Quantize, Reconstruct, Float;
    var o := O(false, 4, 4665, 5784, 5584, 5684, 2544, 8228, 5436);
    PredictedBy(V23(), o, F(10, 44, 118, 944), F(10, 44, 143, 1144), F(10, 44, 113, 904), F(10, 44, 121, 968),
      F(10, 44, 126, 1008), F(10, 44, 102, 816), F(11, 33, 132, 4224), F(9, 40, 85, 1360));
    LevelBy(2507, 4665, 2507, 11, 270, 4);
    DifferenceBy(false, 4, 4665, 1439, 2544);
    FloatBy(2544, 12, 807);
    FloatBy(8228, 14, 928);
    StepIs(V23(), V24(), 8191, o);
  }

  function V24(): Voice {
    Voice(105920, 4631, 886, 1290, 398, 4419, 1288, 2950, 2950, 2950, 2950, 2950, 2950, 0, 0, 807, 810, 819, 808, 811, 813, 928, 895)
  }

  lemma Row24()
    ensures Leads(V24(), 8191, V25())
  {
    hide Leads, Predicted, Quantize, Reconstruct, Float;
    var o := O(false, 4, 4631, 6104, 5824, 5964, 2400, 8364, 5452);
    PredictedBy(V24(), o, F(10, 46, 115, 920), F(10, 46, 123, 984), F(10, 46, 149, 1192), F(10, 46, 118, 944),
      F(10, 46, 126, 1008), F(10, 46, 132, 1056), F(11, 34, 71, 4544), F(9, 40, 160, 1280));
    LevelBy(2227, 4631, 2227, 11, 262, 4);
    DifferenceBy(false, 4, 4631, 1430, 2400);
    FloatBy(2400, 12, 805);
    FloatBy(8364, 14, 928);
    StepIs(V24(), V25(), 8191, o);
  }

  function V25(): Voice {
    Voice(108863, 4598, 874, 1295, 405, 4594, 1267, 3067, 3067, 3067, 3067, 3067, 3067, 0, 0, 805, 807, 810, 819, 808, 811, 928, 928)
  }

  lemma Row25()
    ensures Leads(V25(), 8191, V26())
  {
    hide Leads, Predicted, Quantize, Reconstruct, Float;
    var o := O(false, 4, 4598, 6040, 5968, 6004, 2272, 8276, 5292);
    PredictedBy(V25(), o, F(10, 47, 111, 888), F(10, 47, 117, 936), F(10, 47, 126, 1008), F(10, 47, 152, 1216),
      F(10, 47, 120, 960), F(10, 47, 129, 1032), F(11, 35, 73, 4672), F(9, 39, 81, 1296));
    LevelBy(2187, 4598, 2187, 11, 267, 4);
    DifferenceBy(false, 4, 4598, 1422, 2272);
    FloatBy(2272, 12, 803);
    FloatBy(8276, 14, 928);
    StepIs(V25(), V26(), 8191, o);
  }

  function V26(): Voice {
    Voice(111728, 4566, 862, 1300, 411, 4769, 1242, 3184, 3184, 3184, 3184, 3184, 3184, 0, 0, 803, 805, 807, 810, 819, 808, 928, 928)
  }

  lemma Row26()
    ensures Leads(V26(), 8191, V27())
  {
    hide Leads, Predicted, Quantize, Reconstruct, Float;
    var o := O(false, 4, 4566, 6104, 6192, 6148, 2144, 8292, 5196);
    PredictedBy(V26(), o, F(10, 49, 110, 880), F(10, 49, 116, 928), F(10, 49, 122, 976), F(10, 49, 131, 1048),
      F(10, 49, 159, 1272), F(10, 49, 125, 1000), F(11, 37, 77, 4928), F(9, 38, 79, 1264));
    LevelBy(2043, 4566, 2043, 10, 266, 4);
    DifferenceBy(false, 4, 4566, 1414, 2144);
    FloatBy(2144, 12, 801);
    FloatBy(8292, 14, 928);
    StepIs(V26(), V27(), 8191, o);
  }

  function V27(): Voice {
    Voice(114517, 4535, 851, 1305, 417, 4943, 1211, 3300, 3300, 3300, 3300, 3300, 3300, 0, 0, 801, 803, 805, 807, 810, 819, 928, 928)
  }

  lemma Row27()
    ensures Leads(V27(), 8191, V28())
  {
    hide Leads, Predicted, Quantize, Reconstruct, Float;
    var o := O(false, 4, 4535, 6160, 6288, 6224, 2032, 8256, 5112);
    PredictedBy(V27(), o, F(10, 51, 108, 864), F(10, 51, 114, 912), F(10, 51, 120, 960), F(10, 51, 127, 1016),
      F(10, 51, 136, 1088), F(10, 51, 165, 1320), F(11, 38, 79, 5056), F(9, 37, 77, 1232));
    LevelBy(1967, 4535, 1967, 10, 264, 4);
    DifferenceBy(false, 4, 4535, 1406, 2032);
    FloatBy(2032, 11, 767);
    FloatBy(8256, 14, 928);
    StepIs(V27(), V28(), 8191, o);
  }

  function V28(): Voice {
    Voice(117232, 4505, 840, 1310, 422, 5116, 1175, 3416, 3416, 3416, 3416, 3416, 3416, 0, 0, 767, 801, 803, 805, 807, 810, 928, 928)
  }

  lemma Row28()
    ensures Leads(V28(), 8191, V29())
  {
    hide Leads, Predicted, Quantize, Reconstruct, Float;
    var o := O(false, 4, 4505, 5876, 6384, 6130, 1976, 8106, 4914);
    PredictedBy(V28(), o, F(10, 53, 211, 844), F(10, 53, 112, 896), F(10, 53, 118, 944), F(10, 53, 125, 1000),
      F(10, 53, 132, 1056), F(10, 53, 142, 1136), F(11, 39, 81, 5184), F(9, 36, 75, 1200));
    LevelBy(2061, 4505, 2061, 11, 282, 4);
    DifferenceBy(false, 4, 4505, 1399, 1976);
    FloatBy(1976, 11, 765);
    FloatBy(8106, 13, 895);
    StepIs(V28(), V29(), 8191, o);
  }

  function V29(): Voice {
    Voice(119876, 4476, 829, 1315, 427, 5289, 1134, 3531, 3531, 3531, 3531, 3531, 3531, 0, 0, 765, 767, 801, 803, 805, 807, 895, 928)
  }

  lemma Row29()
    ensures Leads(V29(), 8191, V30())
  {
    hide Leads, Predicted, Quantize, Reconstruct, Float;
    var o := O(false, 4, 4476, 5772, 6416, 6094, 1920, 8014, 4806);
    PredictedBy(V29(), o, F(10, 55, 212, 848), F(10, 55, 219, 876), F(10, 55, 116, 928), F(10, 55, 123, 984),
      F(10, 55, 130, 1040), F(10, 55, 137, 1096), F(11, 41, 164, 5248), F(9, 35, 73, 1168));
    LevelBy(2097, 4476, 2097, 11, 292, 4);
    DifferenceBy(false, 4, 4476, 1392, 1920);
    FloatBy(1920, 11, 764);
    FloatBy(8014, 13, 894);
    StepIs(V29(), V30(), 8191, o);
  }

  function V30(): Voice {
    Voice(122450, 4448, 819, 1320, 432, 5461, 1088, 3646, 3646, 3646, 3646, 3646, 3646, 0, 0, 764, 765, 767, 801, 803, 805, 894, 895)
  }

  lemma Row30()
    ensures Leads(V30(), 8191, V31())
  {
    hide Leads, Predicted, Quantize, Reconstruct, Float;
    var o := O(false, 5, 4448, 5608, 6368, 5988, 2480, 8468, 5284);
    PredictedBy(V30(), o, F(10, 56, 213, 852), F(10, 56, 216, 864), F(10, 56, 223, 892), F(10, 56, 118, 944),
      F(10, 56, 125, 1000), F(10, 56, 132, 1056), F(11, 42, 165, 5280), F(9, 34, 136, 1088));
    LevelBy(2203, 4448, 2203, 11, 305, 5);
    DifferenceBy(false, 5, 4448, 1435, 2480);
    FloatBy(2480, 12, 806);
    FloatBy(8468, 14, 929);
    StepIs(V30(), V31(), 8191, o);
  }

  function V31(): Voice {
    Voice(125043, 4507, 809, 1325, 437, 5632, 1037, 3760, 3760, 3760, 3760, 3760, 3760, 0, 0, 806, 764, 765, 767, 801, 803, 929, 894)
  }

  lemma Row31()
    ensures Leads(V31(), 8191, V32())
  {
    hide Leads, Predicted, Quantize, Reconstruct, Float;
    var o := O(false, 4, 4507, 5828, 6968, 6398, 1976, 8374, 4890);
    PredictedBy(V31(), o, F(10, 58, 140, 1120), F(10, 58, 220, 880), F(10, 58, 224, 896), F(10, 58, 231, 924),
      F(10, 58, 122, 976), F(10, 58, 129, 1032), F(11, 44, 93, 5952), F(9, 32, 127, 1016));
    LevelBy(1793, 4507, 1793, 10, 250, 4);
    DifferenceBy(false, 4, 4507, 1399, 1976);
    FloatBy(1976, 11, 765);
    FloatBy(8374, 14, 928);
    StepIs(V31(), V32(), 8191, o);
  }

  function V32(): Voice {
    Voice(127567, 4478, 799, 1330, 441, 5802, 981, 3874, 3874, 3874, 3874, 3874, 3874, 0, 0, 765, 806, 764, 765, 767, 801, 928, 929)
  }

  lemma Row32()
    ensures Leads(V32(), 8191, V33())
  {
    hide Leads, Predicted, Quantize, Reconstruct, Float;
    var o := O(false, 4, 4478, 5884, 6976, 6430, 1920, 8350, 4862);
    PredictedBy(V32(), o, F(10, 60, 231, 924), F(10, 60, 145, 1160), F(10, 60, 228, 912), F(10, 60, 231, 924),
      F(10, 60, 239, 956), F(10, 60, 126, 1008), F(11, 45, 93, 5952), F(8, 61, 128, 1024));
    LevelBy(1761, 4478, 1761, 10, 253, 4);
    DifferenceBy(false, 4, 4478, 1392, 1920);
    FloatBy(1920, 11, 764);
    FloatBy(8350, 14, 928);
    StepIs(V32(), V33(), 8191, o);
  }

  function V33(): Voice {
    Voice(130023, 4450, 790, 1335, 445, 5972, 920, 3987, 3987, 3987, 3987, 3987, 3987, 0, 0, 764, 765, 806, 764, 765, 767, 928, 928)
  }

  lemma Row33()
    ensures Leads(V33(), 8191, V34())
  {
    hide Leads, Predicted, Quantize, Reconstruct, Float;
    var o := O(false, 4, 4450, 5980, 7016, 6498, 1864, 8362, 4854);
    PredictedBy(V33(), o, F(10, 62, 235, 940), F(10, 62, 239, 956), F(10, 62, 150, 1200), F(10, 62, 235, 940),
      F(10, 62, 239, 956), F(10, 62, 247, 988), F(11, 46, 95, 6080), F(8, 57, 117, 936));
    LevelBy(1693, 4450, 1693, 10, 251, 4);
    DifferenceBy(false, 4, 4450, 1385, 1864);
    FloatBy(1864, 11, 762);
    FloatBy(8362, 14, 928);
    StepIs(V33(), V34(), 8191, o);
  }

  function V34(): Voice {
    Voice(132413, 4422, 781, 1340, 449, 6141, 854, 4100, 4100, 4100, 4100, 4100, 4100, 0, 0, 762, 764, 765, 806, 764, 765, 928, 928)
  }

  lemma Row34()
    ensures Leads(V34(), 8191, V35())
  {
    hide Leads, Predicted, Quantize, Reconstruct, Float;
    var o := O(false, 3, 4422, 6184, 7080, 6632, 1328, 7960, 4420);
    PredictedBy(V34(), o, F(11, 32, 119, 952), F(11, 32, 123, 984), F(11, 32, 125, 1000), F(11, 32, 79, 1264),
      F(11, 32, 123, 984), F(11, 32, 125, 1000), F(11, 47, 97, 6208), F(8, 53, 109, 872));
    LevelBy(1559, 4422, 1559, 10, 241, 3);
    DifferenceBy(false, 3, 4422, 1318, 1328);
    FloatBy(1328, 11, 745);
    FloatBy(7960, 13, 894);
    StepIs(V34(), V35(), 8191, o);
  }

  function V35(): Voice {
    Voice(134691, 4347, 772, 1345, 452, 6310, 784, 4212, 4212, 4212, 4212, 4212, 4212, 0, 0, 745, 762, 764, 765, 806, 764, 894, 928)
  }

  lemma Row35()
    ensures Leads(V35(), 8191, V36())
  {
    hide Leads, Predicted, Quantize, Reconstruct, Float;
    var o := O(false, 4, 4347, 5864, 6952, 6408, 1656, 8064, 4588);
    PredictedBy(V35(), o, F(11, 32, 85, 680), F(11, 32, 119, 952), F(11, 32, 123, 984), F(11, 32, 125, 1000),
      F(11, 32, 79, 1264), F(11, 32, 123, 984), F(11, 49, 192, 6144), F(8, 49, 101, 808));
    LevelBy(1783, 4347, 1783, 10, 288, 4);
    DifferenceBy(false, 4, 4347, 1359, 1656);
    FloatBy(1656, 11, 755);
    FloatBy(8064, 13, 895);
    StepIs(V35(), V36(), 8191, o);
  }

  function V36(): Voice {
    Voice(136909, 4323, 763, 1350, 455, 6478, 708, 4324, 4324, 4324, 4324, 4324, 4324, 0, 0, 755, 745, 762, 764, 765, 806, 895, 894)
  }

  lemma Row36()
    ensures Leads(V36(), 8191, V37())
  {
    hide Leads, Predicted, Quantize, Reconstruct, Float;
    var o := O(false, 4, 4323, 5864, 7060, 6462, 1608, 8070, 4540);
    PredictedBy(V36(), o, F(11, 33, 108, 864), F(11, 33, 87, 696), F(11, 33, 122, 976), F(11, 33, 126, 1008),
      F(11, 33, 128, 1024), F(11, 33, 81, 1296), F(11, 50, 199, 6368), F(8, 44, 173, 692));
    LevelBy(1729, 4323, 1729, 10, 288, 4);
    DifferenceBy(false, 4, 4323, 1353, 1608);
    FloatBy(1608, 11, 754);
    FloatBy(8070, 13, 895);
    StepIs(V36(), V37(), 8191, o);
  }

  function V37(): Voice {
    Voice(139068, 4299, 755, 1355, 458, 6645, 628, 4436, 4436, 4436, 4436, 4436, 4436, 0, 0, 754, 755, 745, 762, 764, 765, 895, 895)
  }

  lemma Row37()
    ensures Leads(V37(), 8191, V38())
  {
    hide Leads, Predicted, Quantize, Reconstruct, Float;
    var o := O(false, 5, 4299, 5584, 7120, 6352, 1960, 8312, 4752);
    PredictedBy(V37(), o, F(11, 34, 109, 872), F(11, 34, 111, 888), F(11, 34, 90, 720), F(11, 34, 126, 1008),
      F(11, 34, 130, 1040), F(11, 34, 132, 1056), F(11, 51, 203, 6496), F(8, 39, 156, 624));
    LevelBy(1839, 4299, 1839, 10, 307, 5);
    DifferenceBy(false, 5, 4299, 1397, 1960);
    FloatBy(1960, 11, 765);
    FloatBy(8312, 14, 928);
    StepIs(V37(), V38(), 8191, o);
  }

  function V38(): Voice {
    Voice(141257, 4362, 747, 1360, 461, 6812, 544, 4547, 4547, 4547, 4547, 4547, 4547, 0, 0, 765, 754, 755, 745, 762, 764, 928, 895)
  }

  lemma Row38()
    ensures Leads(V38(), 8191, V39())
  {
    hide Leads, Predicted, Quantize, Reconstruct, Float;
    var o := O(false, 4, 4362, 5736, 7520, 6628, 1688, 8316, 4556);
    PredictedBy(V38(), o, F(11, 35, 136, 1088), F(11, 35, 112, 896), F(11, 35, 114, 912), F(11, 35, 92, 736),
      F(11, 35, 129, 1032), F(11, 35, 134, 1072), F(11, 53, 109, 6976), F(8, 34, 136, 544));
    LevelBy(1563, 4362, 1563, 10, 257, 4);
    DifferenceBy(false, 4, 4362, 1363, 1688);
    FloatBy(1688, 11, 756);
    FloatBy(8316, 14, 928);
    StepIs(V38(), V39(), 8191, o);
  }

  function V39(): Voice {
    Voice(143386, 4337, 739, 1365, 464, 6978, 455, 4658, 4658, 4658, 4658, 4658, 4658, 0, 0, 756, 765, 754, 755, 745, 762, 928, 928)
  }

  lemma Row39()
    ensures Leads(V39(), 8191, V40())
  {
    hide Leads, Predicted, Quantize, Reconstruct, Float;
    var o := O(false, 4, 4337, 5760, 7564, 6662, 1640, 8302, 4520);
    PredictedBy(V39(), o, F(11, 36, 120, 960), F(11, 36, 140, 1120), F(11, 36, 115, 920), F(11, 36, 117, 936),
      F(11, 36, 95, 760), F(11, 36, 133, 1064), F(11, 54, 111, 7104), F(7, 56, 115, 460));
    LevelBy(1529, 4337, 1529, 10, 259, 4);
    DifferenceBy(false, 4, 4337, 1357, 1640);
    FloatBy(1640, 11, 755);
    FloatBy(8302, 14, 928);
    StepIs(V39(), V40(), 8191, o);
  }

  function V40(): Voice {
    Voice(145458, 4313, 731, 1370, 467, 7143, 361, 4768, 4768, 4768, 4768, 4768, 4768, 0, 0, 755, 756, 765, 754, 755, 745, 928, 928)
  }

  lemma Row40()
    ensures Leads(V40(), 8191, V41())
  {
    hide Leads, Predicted, Quantize, Reconstruct, Float;
    var o := O(false, 4, 4313, 5776, 7604, 6690, 1592, 8282, 4480);
    PredictedBy(V40(), o, F(11, 37, 120, 960), F(11, 37, 123, 984), F(11, 37, 144, 1152), F(11, 37, 118, 944),
      F(11, 37, 120, 960), F(11, 37, 97, 776), F(11, 55, 113, 7232), F(7, 45, 93, 372));
    LevelBy(1501, 4313, 1501, 10, 261, 4);
    DifferenceBy(false, 4, 4313, 1351, 1592);
    FloatBy(1592, 11, 753);
    FloatBy(8282, 14, 928);
    StepIs(V40(), V41(), 8191, o);
  }

  function V41(): Voice {
    Voice(147475, 4290, 724, 1375, 469, 7308, 263, 4878, 4878, 4878, 4878, 4878, 4878, 0, 0, 753, 755, 756, 765, 754, 755, 928, 928)
  }

  lemma Row41()
    ensures Leads(V41(), 8191, V42())
  {
    hide Leads, Predicted, Quantize, Reconstruct, Float;
    var o := O(false, 3, 4290, 6088, 7756, 6922, 1064, 7986, 4108);
    PredictedBy(V41(), o, F(11, 38, 119, 952), F(11, 38, 124, 992), F(11, 38, 126, 1008), F(11, 38, 147, 1176),
      F(11, 38, 121, 968), F(11, 38, 124, 992), F(11, 57, 117, 7488), F(7, 32, 67, 268));
    LevelBy(1269, 4290, 1269, 10, 238, 3);
    DifferenceBy(false, 3, 4290, 1285, 1064);
    FloatBy(1064, 11, 737);
    FloatBy(7986, 13, 894);
    StepIs(V41(), V42(), 8191, o);
  }

  function V42(): Voice {
    Voice(149389, 4219, 717, 1380, 471, 7472, 160, 4987, 4987, 4987, 4987, 4987, 4987, 0, 0, 737, 753, 755, 756, 765, 754, 894, 928)
  }

  lemma Row42()
    ensures Leads(V42(), 8191, V43())
  {
    hide Leads, Predicted, Quantize, Reconstruct, Float;
    var o := O(false, 4, 4219, 5744, 7430, 6587, 1400, 7987, 4272);
    PredictedBy(V42(), o, F(11, 38, 81, 648), F(11, 38, 119, 952), F(11, 38, 124, 992), F(11, 38, 126, 1008),
      F(11, 38, 147, 1176), F(11, 38, 121, 968), F(11, 58, 227, 7264), F(6, 40, 83, 166));
    LevelBy(1604, 4219, 1604, 10, 298, 4);
    DifferenceBy(false, 4, 4219, 1327, 1400);
    FloatBy(1400, 11, 747);
    FloatBy(7987, 13, 894);
    StepIs(V42(), V43(), 8191, o);
  }

  function V43(): Voice {
    Voice(151253, 4199, 710, 1385, 473, 7635, 53, 5096, 5096, 5096, 5096, 5096, 5096, 0, 0, 747, 737, 753, 755, 756, 765, 894, 894)
  }

  lemma Row43()
    ensures Leads(V43(), 8191, V44())
  {
    hide Leads, Predicted, Quantize, Reconstruct, Float;
    var o := O(false, 5, 4199, 5752, 7443, 6597, 1760, 8357, 4636);
    PredictedBy(V43(), o, F(11, 39, 107, 856), F(11, 39, 83, 664), F(11, 39, 122, 976), F(11, 39, 127, 1016),
      F(11, 39, 129, 1032), F(11, 39, 151, 1208), F(11, 59, 231, 7392), F(4, 52, 204, 51));
    LevelBy(1594, 4199, 1594, 10, 302, 5);
    DifferenceBy(false, 5, 4199, 1372, 1760);
    FloatBy(1760, 11, 759);
    FloatBy(8357, 14, 928);
    StepIs(V43(), V44(), 8191, o);
  }

  function V44(): Voice {
    Voice(153154, 4265, 703, 1390, 475, 7798, -58, 5205, 5205, 5205, 5205, 5205, 5205, 0, 0, 759, 747, 737, 753, 755, 756, 928, 894)
  }

  lemma Row44()
    ensures Leads(V44(), 8191, V45())
  {
    hide Leads, Predicted, Quantize, Reconstruct, Float;
    var o := O(false, 4, 4265, 5784, 7814, 6799, 1496, 8295, 4388);
    PredictedBy(V44(), o, F(11, 40, 140, 1120), F(11, 40, 110, 880), F(11, 40, 85, 680), F(11, 40, 125, 1000),
      F(11, 40, 130, 1040), F(11, 40, 133, 1064), F(11, 60, 123, 7872), F(4, 60, 235, 58));
    LevelBy(1392, 4265, 1392, 10, 260, 4);
    DifferenceBy(false, 4, 4265, 1339, 1496);
    FloatBy(1496, 11, 750);
    FloatBy(8295, 14, 928);
    StepIs(V44(), V45(), 8191, o);
  }

  function V45(): Voice {
    Voice(155003, 4243, 697, 1395, 477, 7960, -173, 5313, 5313, 5313, 5313, 5313, 5313, 0, 0, 750, 759, 747, 737, 753, 755, 928, 928)
  }

  lemma Row45()
    ensures Leads(V45(), 8191, V46())
  {
    hide Leads, Predicted, Quantize, Reconstruct, Float;
    var o := O(false, 4, 4243, 5792, 7946, 6869, 1448, 8317, 4344);
    PredictedBy(V45(), o, F(11, 41, 120, 960), F(11, 41, 143, 1144), F(11, 41, 113, 904), F(11, 41, 87, 696),
      F(11, 41, 128, 1024), F(11, 41, 133, 1064), F(11, 62, 127, 8128), F(6, 44, 91, 182));
    LevelBy(1322, 4243, 1322, 10, 257, 4);
    DifferenceBy(false, 4, 4243, 1333, 1448);
    FloatBy(1448, 11, 749);
    FloatBy(8317, 14, 928);
    StepIs(V45(), V46(), 8191, o);
  }

  function V46(): Voice {
    Voice(156803, 4222, 691, 1400, 479, 8121, -292, 5421, 5421, 5421, 5421, 5421, 5421, 0, 0, 749, 750, 759, 747, 737, 753, 928, 928)
  }

  lemma Row46()
    ensures Leads(V46(), 8191, V47())
  {
    hide Leads, Predicted, Quantize, Reconstruct, Float;
    var o := O(false, 4, 4222, 5808, 7956, 6882, 1408, 8290, 4312);
    PredictedBy(V46(), o, F(11, 42, 121, 968), F(11, 42, 123, 984), F(11, 42, 147, 1176), F(11, 42, 115, 920),
      F(11, 42, 89, 712), F(11, 42, 131, 1048), F(11, 63, 129, 8256), F(7, 36, 75, 300));
    LevelBy(1309, 4222, 1309, 10, 260, 4);
    DifferenceBy(false, 4, 4222, 1328, 1408);
    FloatBy(1408, 11, 748);
    FloatBy(8290, 14, 928);
    StepIs(V46(), V47(), 8191, o);
  }

  function V47(): Voice {
    Voice(158554, 4202, 685, 1405, 481, 8282, -415, 5528, 5528, 5528, 5528, 5528, 5528, 0, 0, 748, 749, 750, 759, 747, 737, 928, 928)
  }

  lemma Row47()
    ensures Leads(V47(), 8191, V48())
  {
    hide Leads, Predicted, Quantize, Reconstruct, Float;
    var o := O(false, 4, 4202, 5832, 8148, 6990, 1368, 8358, 4284);
    PredictedBy(V47(), o, F(11, 43, 121, 968), F(11, 43, 123, 984), F(11, 43, 126, 1008), F(11, 43, 150, 1200),
      F(11, 43, 118, 944), F(11, 43, 91, 728), F(12, 32, 67, 8576), F(7, 52, 107, 428));
    LevelBy(1201, 4202, 1201, 10, 252, 4);
    DifferenceBy(false, 4, 4202, 1323, 1368);
    FloatBy(1368, 11, 746);
    FloatBy(8358, 14, 928);
    StepIs(V47(), V48(), 8191, o);
  }

  function V48(): Voice {
    Voice(160258, 4182, 679, 1410, 482, 8442, -539, 5635, 5635, 5635, 5635, 5635, 5635, 0, 0, 746, 748, 749, 750, 759, 747, 928, 928)
  }

  lemma Row48()
    ensures Leads(V48(), 8191, V49())
  {
    hide Leads, Predicted, Quantize, Reconstruct, Float;
    var o := O(false, 3, 4182, 6176, 8024, 7100, 936, 8036, 4024);
    PredictedBy(V48(), o, F(11, 44, 118, 944), F(11, 44, 124, 992), F(11, 44, 126, 1008), F(11, 44, 129, 1032),
      F(11, 44, 154, 1232), F(11, 44, 121, 968), F(12, 32, 67, 8576), F(8, 33, 69, 552));
    LevelBy(1091, 4182, 1091, 10, 243, 3);
    DifferenceBy(false, 3, 4182, 1258, 936);
    FloatBy(936, 10, 698);
    FloatBy(8036, 13, 894);
    StepIs(V48(), V49(), 8191, o);
  }

  function V49(): Voice {
    Voice(161868, 4115, 673, 1414, 483, 8602, -662, 5741, 5741, 5741, 5741, 5741, 5741, 0, 0, 698, 746, 748, 749, 750, 759, 894, 928)
  }

  lemma Row49()
    ensures Leads(V49(), 8191, V50())
  {
    hide Leads, Predicted, Quantize, Reconstruct, Float;
    var o := O(false, 5, 4115, 5856, 7640, 6748, 1592, 8340, 4520);
    PredictedBy(V49(), o, F(11, 44, 162, 648), F(11, 44, 118, 944), F(11, 44, 124, 992), F(11, 44, 126, 1008),
      F(11, 44, 129, 1032), F(11, 44, 154, 1232), F(12, 33, 130, 8320), F(8, 41, 85, 680));
    LevelBy(1443, 4115, 1443, 10, 304, 5);
    DifferenceBy(false, 5, 4115, 1351, 1592);
    FloatBy(1592, 11, 753);
    FloatBy(8340, 14, 928);
    StepIs(V49(), V50(), 8191, o);
  }

  function V50(): Voice {
    Voice(163522, 4184, 667, 1418, 484, 8761, -784, 5847, 5847, 5847, 5847, 5847, 5847, 0, 0, 753, 698, 746, 748, 749, 750, 928, 894)
  }

  lemma Row50()
    ensures Leads(V50(), 8191, V51())
  {
    hide Leads, Predicted, Quantize, Reconstruct, Float;
    var o := O(false, 3, 4184, 5848, 8320, 7084, 940, 8024, 3864);
    PredictedBy(V50(), o, F(11, 45, 140, 1120), F(11, 45, 166, 664), F(11, 45, 121, 968), F(11, 45, 126, 1008),
      F(11, 45, 129, 1032), F(11, 45, 132, 1056), F(12, 34, 71, 9088), F(8, 49, 192, 768));
    LevelBy(1107, 4184, 1107, 10, 244, 3);
    DifferenceBy(false, 3, 4184, 1259, 940);
    FloatBy(940, 10, 698);
    FloatBy(8024, 13, 894);
    StepIs(V50(), V51(), 8191, o);
  }

  function V51(): Voice {
    Voice(165083, 4117, 662, 1422, 485, 8919, -905, 5953, 5953, 5953, 5953, 5953, 5953, 0, 0, 698, 753, 698, 746, 748, 749, 894, 928)
  }

  lemma Row51()
    ensures Leads(V51(), 7000, V52())
  {
    hide Leads, Predicted, Quantize, Reconstruct, Float;
    var o := O(false, 1, 4117, 5568, 7656, 6612, 274, 6886, 3058);
    PredictedBy(V51(), o, F(11, 46, 169, 676), F(11, 46, 143, 1144), F(11, 46, 169, 676), F(11, 46, 123, 984),
      F(11, 46, 129, 1032), F(11, 46, 132, 1056), F(12, 34, 134, 8576), F(8, 56, 115, 920));
    LevelBy(388, 4117, 388, 8, 61, 1);
    DifferenceBy(false, 1, 4117, 1033, 274);
    FloatBy(274, 9, 610);
    FloatBy(6886, 13, 885);
    StepIs(V51(), V52(), 7000, o);
  }

  function V52(): Voice {
    Voice(166509, 4006, 641, 1410, 486, 9077, -1025, 6058, 6058, 6058, 6058, 6058, 6058, 0, 0, 610, 698, 753, 698, 746, 748, 885, 894)
  }

  lemma Row52()
    ensures Leads(V52(), 8191, V53())
  {
    hide Leads, Predicted, Quantize, Reconstruct, Float;
    var o := O(false, 7, 4006, 4820, 6536, 5678, 2336, 8014, 4746);
    PredictedBy(V52(), o, F(11, 47, 102, 204), F(11, 47, 173, 692), F(11, 47, 146, 1168), F(11, 47, 173, 692),
      F(11, 47, 126, 1008), F(11, 47, 132, 1056), F(12, 35, 118, 7552), F(9, 32, 127, 1016));
    LevelBy(2513, 4006, 2513, 11, 436, 7);
    DifferenceBy(false, 7, 4006, 1426, 2336);
    FloatBy(2336, 12, 804);
    FloatBy(8014, 13, 894);
    StepIs(V52(), V53(), 8191, o);
  }

  function V53(): Voice {
    Voice(168909, 5002, 732, 1510, 487, 9234, -1144, 6163, 6163, 6163, 6163, 6163, 6163, 0, 0, 804, 610, 698, 753, 698, 746, 894, 885)
  }

  lemma Row53()
    ensures Leads(V53(), 8191, V54())
  {
    hide Leads, Predicted, Quantize, Reconstruct, Float;
    var o := O(false, 1, 5002, 5634, 8144, 6889, 920, 7809, 3737);
    PredictedBy(V53(), o, F(11, 48, 111, 1776), F(11, 48, 105, 210), F(11, 48, 177, 708), F(11, 48, 150, 1200),
      F(11, 48, 177, 708), F(11, 48, 129, 1032), F(12, 36, 142, 9088), F(9, 35, 118, 944));
    LevelBy(1302, 5002, 1302, 10, 64, 1);
    DifferenceBy(false, 1, 5002, 1254, 920);
    FloatBy(920, 10, 697);
    FloatBy(7809, 13, 893);
    StepIs(V53(), V54(), 8191, o);
  }

  function V54(): Voice {
    Voice(171132, 4863, 709, 1498, 488, 9390, -1263, 6267, 6267, 6267, 6267, 6267, 6267, 0, 0, 697, 804, 610, 698, 753, 698, 893, 894)
  }

  lemma Row54()
    ensures Leads(V54(), 8191, V55())
  {
    hide Leads, Predicted, Quantize, Reconstruct, Float;
    var o := O(false, 2, 4863, 5298, 7728, 6513, 1584, 8097, 4233);
    PredictedBy(V54(), o, F(11, 48, 174, 696), F(11, 48, 111, 1776), F(11, 48, 105, 210), F(11, 48, 177, 708),
      F(11, 48, 150, 1200), F(11, 48, 177, 708), F(12, 36, 140, 8960), F(9, 39, 154, 1232));
    LevelBy(1678, 4863, 1678, 10, 146, 2);
    DifferenceBy(false, 2, 4863, 1350, 1584);
    FloatBy(1584, 11, 753);
    FloatBy(8097, 13, 895);
    StepIs(V54(), V55(), 8191, o);
  }

  function V55(): Voice {
    Voice(173210, 4752, 686, 1486, 489, 9546, -1381, 6371, 6371, 6371, 6371, 6371, 6371, 0, 0, 753, 697, 804, 610, 698, 753, 895, 893)
  }

  lemma Row55()
    ensures Leads(V55(), 8191, V56())
  {
    hide Leads, Predicted, Quantize, Reconstruct, Float;
    var o := O(false, 2, 4752, 5898, 8144, 7021, 1368, 8389, 4317);
    PredictedBy(V55(), o, F(11, 49, 153, 1224), F(11, 49, 177, 708), F(11, 49, 113, 1808), F(11, 49, 107, 214),
      F(11, 49, 180, 720), F(11, 49, 153, 1224), F(12, 37, 148, 9472), F(9, 43, 166, 1328));
    LevelBy(1170, 4752, 1170, 10, 110, 2);
    DifferenceBy(false, 2, 4752, 1323, 1368);
    FloatBy(1368, 11, 746);
    FloatBy(8389, 14, 928);
    StepIs(V55(), V56(), 8191, o);
  }

  function V56(): Voice {
    Voice(175147, 4644, 664, 1474, 490, 9701, -1498, 6475, 6475, 6475, 6475, 6475, 6475, 0, 0, 746, 753, 697, 804, 610, 698, 928, 895)
  }

  lemma Row56()
    ensures Leads(V56(), 8191, V57())
  {
    hide Leads, Predicted, Quantize, Reconstruct, Float;
    var o := O(false, 2, 4644, 5838, 8384, 7111, 1152, 8263, 4071);
    PredictedBy(V56(), o, F(11, 50, 134, 1072), F(11, 50, 156, 1248), F(11, 50, 181, 724), F(11, 50, 115, 1840),
      F(11, 50, 109, 218), F(11, 50, 184, 736), F(12, 37, 77, 9856), F(9, 46, 184, 1472));
    LevelBy(1080, 4644, 1080, 10, 126, 2);
    DifferenceBy(false, 2, 4644, 1296, 1152);
    FloatBy(1152, 11, 740);
    FloatBy(8263, 14, 928);
    StepIs(V56(), V57(), 8191, o);
  }

  function V57(): Voice {
    Voice(176949, 4539, 643, 1462, 491, 9856, -1614, 6578, 6578, 6578, 6578, 6578, 6578, 0, 0, 740, 746, 753, 697, 804, 610, 928, 928)
  }

  lemma Row57()
    ensures Leads(V57(), 8191, V58())
  {
    hide Leads, Predicted, Quantize, Reconstruct, Float;
    var o := O(false, 2, 4539, 6126, 8464, 7295, 980, 8275, 4043);
    PredictedBy(V57(), o, F(11, 51, 117, 936), F(11, 51, 136, 1088), F(11, 51, 159, 1272), F(11, 51, 184, 736),
      F(11, 51, 117, 1872), F(11, 51, 111, 222), F(12, 38, 79, 10112), F(9, 50, 103, 1648));
    LevelBy(896, 4539, 896, 9, 114, 2);
    DifferenceBy(false, 2, 4539, 1269, 980);
    FloatBy(980, 10, 701);
    FloatBy(8275, 14, 928);
    StepIs(V57(), V58(), 8191, o);
  }

  function V58(): Voice {
    Voice(178622, 4438, 622, 1450, 492, 10010, -1729, 6681, 6681, 6681, 6681, 6681, 6681, 0, 0, 701, 740, 746, 753, 697, 804, 928, 928)
  }

  lemma Row58()
    ensures Leads(V58(), 8191, V59())
  {
    hide Leads, Predicted, Quantize, Reconstruct, Float;
    var o := O(false, 1, 4438, 6844, 8592, 7718, 434, 8152, 3856);
    PredictedBy(V58(), o, F(11, 52, 201, 804), F(11, 52, 120, 960), F(11, 52, 139, 1112), F(11, 52, 162, 1296),
      F(11, 52, 188, 752), F(11, 52, 120, 1920), F(12, 39, 81, 10368), F(9, 54, 111, 1776));
    LevelBy(473, 4438, 473, 8, 23, 1);
    DifferenceBy(false, 1, 4438, 1113, 434);
    FloatBy(434, 9, 630);
    FloatBy(8152, 13, 895);
    StepIs(V58(), V59(), 8191, o);
  }

  function V59(): Voice {
    Voice(180148, 4317, 602, 1438, 493, 10163, -1843, 6783, 6783, 6783, 6783, 6783, 6783, 0, 0, 630, 701, 740, 746, 753, 697, 895, 928)
  }

  lemma Row59()
    ensures Leads(V59(), -8192, V60())
  {
    hide Leads, Predicted, Quantize, Reconstruct, Float;
    var o := O(true, 7, 4317, 5280, 8112, 6696, -29184, 3112, -944);
    PredictedBy(V59(), o, F(11, 52, 178, 356), F(11, 52, 201, 804), F(11, 52, 120, 960), F(11, 52, 139, 1112),
      F(11, 52, 162, 1296), F(11, 52, 188, 752), F(12, 39, 156, 9984), F(9, 57, 117, 1872));
    LevelBy(-14888, 4317, 14888, 13, 689, 7);
    DifferenceBy(true, 7, 4317, 1504, 3584);
    FloatBy(3584, 12, 824);
    FloatBy(3112, 12, 816);
    StepIs(V59(), V60(), -8192, o);
  }

  function V60(): Voice {
    Voice(182453, 5120, 695, 1538, 494, 9932, -1701, 6629, 6629, 6629, 6629, 6629, 6629, 1, 0, -200, 630, 701, 740, 746, 753, 816, 895)
  }

  lemma Row60()
    ensures Leads(V60(), -8192, V61())
  {
    hide Leads, Predicted, Quantize, Reconstruct, Float;
    var o := O(true, 7, 5120, 1538, 2056, 1797, -21952, -9019, -10047);
    PredictedBy(V60(), o, F(11, 51, 181, 2896), F(11, 51, 175, 350), F(11, 51, 197, 788), F(11, 51, 117, 936),
      F(11, 51, 136, 1088), F(11, 51, 159, 1272), F(12, 38, 117, 3744), F(9, 53, 211, 1688));
    LevelBy(-9989, 5120, 9989, 13, 412, 7);
    DifferenceBy(true, 7, 5120, 1705, 10816);
    FloatBy(10816, 14, 938);
    FloatBy(9019, 14, 931);
    StepIs(V60(), V61(), -8192, o);
  }

  function V61(): Voice {
    Voice(184722, 5120, 785, 1637, 495, 10086, -2071, 6732, 6476, 6476, 6476, 6476, 6476, 1, 1, -86, -200, 630, 701, 740, 746, -93, 816)
  }

  lemma Row61()
    ensures Leads(V61(), 8191, V62())
  {
    hide Leads, Predicted, Quantize, Reconstruct, Float;
    var o := O(false, 7, 5120, -8638, -12056, -10347, 10816, 469, 6497);
    PredictedBy(V61(), o, F(11, 52, 139, 8896), F(11, 50, 178, 2848), F(11, 50, 171, 342), F(11, 50, 193, 772),
      F(11, 50, 115, 920), F(11, 50, 134, 1072), F(12, 39, 88, 11264), F(10, 32, 99, 792));
    LevelBy(18538, 5120, 18538, 14, 528, 7);
    DifferenceBy(false, 7, 5120, 1705, 10816);
    FloatBy(10816, 14, 938);
    FloatBy(469, 9, 634);
    StepIs(V61(), V62(), 8191, o);
  }

  function V62(): Voice {
    Voice(186955, 5120, 872, 1736, 496, 9855, -1927, 6578, 6323, 6579, 6579, 6579, 6579, 0, 1, 938, -86, -200, 630, 701, 740, 634, -93)
  }

  lemma Row62()
    ensures Leads(V62(), 8191, V63())
  {
    hide Leads, Predicted, Quantize, Reconstruct, Float;
    var o := O(false, 6, 5120, -502, 2704, 1101, 7840, 8941, 7589);
    PredictedBy(V62(), o, F(11, 51, 136, 8704), F(11, 49, 131, 8384), F(11, 51, 181, 2896), F(11, 51, 175, 350),
      F(11, 51, 197, 788), F(11, 51, 117, 936), F(12, 38, 140, 560), F(9, 60, 134, 2144));
    LevelBy(7090, 5120, 7090, 12, 349, 6);
    DifferenceBy(false, 6, 5120, 1653, 7840);
    FloatBy(7840, 13, 893);
    FloatBy(8941, 14, 930);
    StepIs(V62(), V63(), 8191, o);
  }

  function V63(): Voice {
    Voice(189153, 5120, 892, 1770, 497, 10009, -2295, 6681, 6171, 6426, 6682, 6682, 6682, 0, 0, 893, 938, -86, -200, 630, 701, 930, 634)
  }

  lemma Row63()
    ensures Leads(V63(), 8191, V64())
  {
    hide Leads, Predicted, Quantize, Reconstruct, Float;
    var o := O(false, 1, 5120, 4312, 10751, 7531, 1056, 8587, 3212);
    PredictedBy(V63(), o, F(11, 52, 201, 6432), F(11, 48, 129, 8256), F(11, 50, 134, 8576), F(11, 52, 185, 2960),
      F(11, 52, 178, 356), F(11, 52, 201, 804), F(12, 39, 85, 10880), F(10, 35, 129, 129));
    LevelBy(660, 5120, 660, 9, -91, 1);
    DifferenceBy(false, 1, 5120, 1284, 1056);
    FloatBy(1056, 11, 737);
    FloatBy(8587, 14, 929);
    StepIs(V63(), V64(), 8191, o);
  }

  function V64(): Voice {
    Voice(191175, 4978, 864, 1756, 497, 10162, -2405, 6783, 6275, 6273, 6528, 6784, 6784, 0, 0, 737, 893, 938, -86, -200, 630, 929, 930)
  }

  lemma Row64()
    ensures Leads(V64(), 8191, V65())
  {
    hide Leads, Predicted, Quantize, Reconstruct, Float;
    var o := O(false, 2, 4978, 3962, 8032, 5997, 1816, 7813, 3797);
    PredictedBy(V64(), o, F(11, 52, 110, 880), F(11, 49, 189, 6048), F(11, 49, 131, 8384), F(11, 51, 136, 8704),
      F(11, 53, 188, 3008), F(11, 53, 181, 362), F(12, 39, 83, 10624), F(10, 37, 81, 2592));
    LevelBy(2194, 4978, 2194, 11, 173, 2);
    DifferenceBy(false, 2, 4978, 1379, 1816);
    FloatBy(1816, 11, 760);
    FloatBy(7813, 13, 893);
    StepIs(V64(), V65(), 8191, o);
  }

  function V65(): Voice {
    Voice(193050, 4863, 837, 1742, 497, 10315, -2514, 6885, 6379, 6377, 6375, 6630, 6886, 0, 0, 760, 737, 893, 938, -86, -200, 893, 929)
  }

  lemma Row65()
    ensures Leads(V65(), -8192, V66())
  {
    hide Leads, Predicted, Quantize, Reconstruct, Float;
    var o := O(true, 7, 4863, 5056, 7264, 6160, -25344, -1264, -4896);
    PredictedBy(V65(), o, F(11, 53, 188, 1504), F(11, 49, 104, 832), F(11, 49, 189, 6048), F(11, 49, 131, 8384),
      F(11, 51, 136, 8704), F(11, 53, 188, 3008), F(12, 40, 155, 9920), F(10, 39, 83, 2656));
    LevelBy(-14352, 4863, 14352, 13, 545, 7);
    DifferenceBy(true, 7, 4863, 1640, 7424);
    FloatBy(7424, 13, 890);
    FloatBy(1264, 11, 743);
    StepIs(V65(), V66(), -8192, o);
  }

  function V66(): Voice {
    Voice(195153, 5120, 922, 1840, 497, 10083, -2367, 6731, 6227, 6225, 6223, 6733, 6988, 1, 0, -134, 760, 737, 893, 938, -86, -281, 893)
  }

  lemma Row66()
    ensures Leads(V66(), 8191, V67())
  {
    hide Leads, Predicted, Quantize, Reconstruct, Float;
    var o := O(false, 7, 5120, 1704, -3872, -1084, 10816, 9732, 11668);
    PredictedBy(V66(), o, F(11, 52, 191, 6112), F(11, 48, 171, 1368), F(11, 48, 102, 816), F(11, 48, 186, 5952),
      F(11, 52, 139, 8896), F(11, 54, 144, 9216), F(12, 39, 98, 1568), F(10, 37, 144, 2304));
    LevelBy(9275, 5120, 9275, 13, 400, 7);
    DifferenceBy(false, 7, 5120, 1705, 10816);
    FloatBy(10816, 14, 938);
    FloatBy(9732, 14, 934);
    StepIs(V66(), V67(), 8191, o);
  }

  function V67(): Voice {
    Voice(197223, 5120, 1005, 1937, 497, 9852, -1965, 6577, 6331, 6329, 6327, 6835, 6833, 0, 1, 938, -134, 760, 737, 893, 938, 934, -281)
  }

  lemma Row67()
    ensures Loses(V67(), 67)
  {
    hide PredictorZero, PredictorPole, Encode;
    var o := O(false, 1, 544, 20816, 12206, 0, 0, 0, 0);
    PredictedBy(V67(), o, F(11, 51, 136, 8704), F(11, 49, 180, 5760), F(11, 49, 174, 1392), F(11, 49, 104, 832),
      F(11, 53, 205, 6560), F(11, 53, 142, 9088), F(12, 38, 93, 11904), F(9, 61, 151, 302));
    EstimateIs(V67().Full(), 20816, 12206);
  }
}
