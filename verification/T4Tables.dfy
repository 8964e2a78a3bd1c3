/** Both code trees of src/convert/hufman.h against the code words of T.4: where every node lies, and that its code
    words and run lengths are those of the tables of T.4, no more and no fewer. */
module T4Tables {
  import opened HufTree
  import opened HufTables
  import opened HufCodes
  import opened T4

  function WhiteLabel(i: nat): Label {
    if i < 16 then WhiteLabel0(i)
    else if i < 32 then WhiteLabel16(i)
    else if i < 48 then WhiteLabel32(i)
    else if i < 64 then WhiteLabel48(i)
    else if i < 80 then WhiteLabel64(i)
    else if i < 96 then WhiteLabel80(i)
    else if i < 112 then WhiteLabel96(i)
    else if i < 128 then WhiteLabel112(i)
    else if i < 144 then WhiteLabel128(i)
    else if i < 160 then WhiteLabel144(i)
    else if i < 176 then WhiteLabel160(i)
    else if i < 192 then WhiteLabel176(i)
    else if i < 208 then WhiteLabel192(i)
    else WhiteLabel208(i)
  }

  function WhiteLabel0(i: nat): Label {
    match i
    case 0 => Label(1, 0) case 1 => Label(1_0, 0) case 2 => Label(1_01, 1) case 3 => Label(1_011, 2)
    case 4 => Label(1_0111, 3) case 5 => Label(1_1, 0) case 6 => Label(1_10, 5) case 7 => Label(1_100, 6)
    case 8 => Label(1_1000, 7) case 9 => Label(1_101, 6) case 10 => Label(1_1011, 9) case 11 => Label(1_11, 5)
    case 12 => Label(1_110, 11) case 13 => Label(1_1100, 12) case 14 => Label(1_111, 11) case _ => Label(1_1110, 14)
  }

  function WhiteLabel16(i: nat): Label {
    match i
    case 16 => Label(1_1111, 14) case 17 => Label(1_1001, 7) case 18 => Label(1_10011, 17)
    case 19 => Label(1_1010, 9) case 20 => Label(1_10100, 19) case 21 => Label(1_00, 1) case 22 => Label(1_001, 21)
    case 23 => Label(1_0011, 22) case 24 => Label(1_00111, 23) case 25 => Label(1_010, 2)
    case 26 => Label(1_0100, 25) case 27 => Label(1_01000, 26) case 28 => Label(1_1101, 12)
    case 29 => Label(1_11011, 28) case 30 => Label(1_10010, 17) case _ => Label(1_000, 21)
  }

  function WhiteLabel32(i: nat): Label {
    match i
    case 32 => Label(1_0001, 31) case 33 => Label(1_00011, 32) case 34 => Label(1_000111, 33)
    case 35 => Label(1_0010, 22) case 36 => Label(1_00100, 35) case 37 => Label(1_001000, 36)
    case 38 => Label(1_0000, 31) case 39 => Label(1_00001, 38) case 40 => Label(1_000011, 39)
    case 41 => Label(1_11010, 28) case 42 => Label(1_110100, 41) case 43 => Label(1_110101, 41)
    case 44 => Label(1_10101, 19) case 45 => Label(1_101010, 44) case 46 => Label(1_101011, 44)
    case _ => Label(1_0101, 25)
  }

  function WhiteLabel48(i: nat): Label {
    match i
    case 48 => Label(1_01011, 47) case 49 => Label(1_010111, 48) case 50 => Label(1_0110, 3)
    case 51 => Label(1_01100, 50) case 52 => Label(1_011000, 51) case 53 => Label(1_01001, 26)
    case 54 => Label(1_010011, 53) case 55 => Label(1_0100111, 54) case 56 => Label(1_000110, 33)
    case 57 => Label(1_0001100, 56) case 58 => Label(1_00010, 32) case 59 => Label(1_000100, 58)
    case 60 => Label(1_0001000, 59) case 61 => Label(1_00101, 35) case 62 => Label(1_001011, 61)
    case _ => Label(1_0010111, 62)
  }

  function WhiteLabel64(i: nat): Label {
    match i
    case 64 => Label(1_00000, 38) case 65 => Label(1_000001, 64) case 66 => Label(1_0000011, 65)
    case 67 => Label(1_000010, 39) case 68 => Label(1_0000100, 67) case 69 => Label(1_01010, 47)
    case 70 => Label(1_010100, 69) case 71 => Label(1_0101000, 70) case 72 => Label(1_010101, 69)
    case 73 => Label(1_0101011, 72) case 74 => Label(1_001001, 36) case 75 => Label(1_0010011, 74)
    case 76 => Label(1_010010, 53) case 77 => Label(1_0100100, 76) case 78 => Label(1_00110, 23)
    case _ => Label(1_001100, 78)
  }

  function WhiteLabel80(i: nat): Label {
    match i
    case 80 => Label(1_0011000, 79) case 81 => Label(1_01101, 50) case 82 => Label(1_011011, 81)
    case 83 => Label(1_0110111, 82) case 84 => Label(1_001101, 78) case 85 => Label(1_0011010, 84)
    case 86 => Label(1_00110101, 85) case 87 => Label(1_000000, 64) case 88 => Label(1_0000001, 87)
    case 89 => Label(1_00000010, 88) case 90 => Label(1_00000011, 88) case 91 => Label(1_0001101, 56)
    case 92 => Label(1_00011010, 91) case 93 => Label(1_00011011, 91) case 94 => Label(1_0001001, 59)
    case _ => Label(1_00010010, 94)
  }

  function WhiteLabel96(i: nat): Label {
    match i
    case 96 => Label(1_00010011, 94) case 97 => Label(1_000101, 58) case 98 => Label(1_0001010, 97)
    case 99 => Label(1_00010100, 98) case 100 => Label(1_00010101, 98) case 101 => Label(1_0001011, 97)
    case 102 => Label(1_00010110, 101) case 103 => Label(1_00010111, 101) case 104 => Label(1_001010, 61)
    case 105 => Label(1_0010100, 104) case 106 => Label(1_00101000, 105) case 107 => Label(1_00101001, 105)
    case 108 => Label(1_0010101, 104) case 109 => Label(1_00101010, 108) case 110 => Label(1_00101011, 108)
    case _ => Label(1_0010110, 62)
  }

  function WhiteLabel112(i: nat): Label {
    match i
    case 112 => Label(1_00101100, 111) case 113 => Label(1_00101101, 111) case 114 => Label(1_0000010, 65)
    case 115 => Label(1_00000100, 114) case 116 => Label(1_00000101, 114) case 117 => Label(1_0000101, 67)
    case 118 => Label(1_00001010, 117) case 119 => Label(1_00001011, 117) case 120 => Label(1_0101001, 70)
    case 121 => Label(1_01010010, 120) case 122 => Label(1_01010011, 120) case 123 => Label(1_0101010, 72)
    case 124 => Label(1_01010100, 123) case 125 => Label(1_01010101, 123) case 126 => Label(1_0010010, 74)
    case _ => Label(1_00100100, 126)
  }

  function WhiteLabel128(i: nat): Label {
    match i
    case 128 => Label(1_00100101, 126) case 129 => Label(1_010110, 48) case 130 => Label(1_0101100, 129)
    case 131 => Label(1_01011000, 130) case 132 => Label(1_01011001, 130) case 133 => Label(1_0101101, 129)
    case 134 => Label(1_01011010, 133) case 135 => Label(1_01011011, 133) case 136 => Label(1_0100101, 76)
    case 137 => Label(1_01001010, 136) case 138 => Label(1_01001011, 136) case 139 => Label(1_0011001, 79)
    case 140 => Label(1_00110010, 139) case 141 => Label(1_00110011, 139) case 142 => Label(1_00110100, 85)
    case _ => Label(1_0011011, 84)
  }

  function WhiteLabel144(i: nat): Label {
    match i
    case 144 => Label(1_00110110, 143) case 145 => Label(1_00110111, 143) case 146 => Label(1_011001, 51)
    case 147 => Label(1_0110010, 146) case 148 => Label(1_01100100, 147) case 149 => Label(1_01100101, 147)
    case 150 => Label(1_011010, 81) case 151 => Label(1_0110100, 150) case 152 => Label(1_01101000, 151)
    case 153 => Label(1_0110011, 146) case 154 => Label(1_01100111, 153) case 155 => Label(1_01100110, 153)
    case 156 => Label(1_011001100, 155) case 157 => Label(1_011001101, 155) case 158 => Label(1_01101001, 151)
    case _ => Label(1_011010010, 158)
  }

  function WhiteLabel160(i: nat): Label {
    match i
    case 160 => Label(1_011010011, 158) case 161 => Label(1_0110101, 150) case 162 => Label(1_01101010, 161)
    case 163 => Label(1_011010100, 162) case 164 => Label(1_011010101, 162) case 165 => Label(1_01101011, 161)
    case 166 => Label(1_011010110, 165) case 167 => Label(1_011010111, 165) case 168 => Label(1_0110110, 82)
    case 169 => Label(1_01101100, 168) case 170 => Label(1_011011000, 169) case 171 => Label(1_011011001, 169)
    case 172 => Label(1_01101101, 168) case 173 => Label(1_011011010, 172) case 174 => Label(1_011011011, 172)
    case _ => Label(1_0100110, 54)
  }

  function WhiteLabel176(i: nat): Label {
    match i
    case 176 => Label(1_01001100, 175) case 177 => Label(1_010011000, 176) case 178 => Label(1_010011001, 176)
    case 179 => Label(1_01001101, 175) case 180 => Label(1_010011010, 179) case 181 => Label(1_010011011, 179)
    case 182 => Label(1_0000000, 87) case 183 => Label(1_00000001, 182) case 184 => Label(1_000000010, 183)
    case 185 => Label(1_0000000100, 184) case 186 => Label(1_00000001000, 185) case 187 => Label(1_000000011, 183)
    case 188 => Label(1_0000000110, 187) case 189 => Label(1_00000001100, 188) case 190 => Label(1_00000001101, 188)
    case _ => Label(1_00000000, 182)
  }

  function WhiteLabel192(i: nat): Label {
    match i
    case 192 => Label(1_000000000, 191) case 193 => Label(1_0000000000, 192) case 194 => Label(1_00000000000, 193)
    case 195 => Label(1_00000001001, 185) case 196 => Label(1_000000010010, 195)
    case 197 => Label(1_000000010011, 195) case 198 => Label(1_0000000101, 184)
    case 199 => Label(1_00000001010, 198) case 200 => Label(1_000000010100, 199)
    case 201 => Label(1_000000010101, 199) case 202 => Label(1_00000001011, 198)
    case 203 => Label(1_000000010110, 202) case 204 => Label(1_000000010111, 202)
    case 205 => Label(1_0000000111, 187) case 206 => Label(1_00000001110, 205) case _ => Label(1_000000011100, 206)
  }

  function WhiteLabel208(i: nat): Label {
    match i
    case 208 => Label(1_000000011101, 206) case 209 => Label(1_00000001111, 205)
    case 210 => Label(1_000000011110, 209) case _ => Label(1_000000011111, 209)
  }

  function WhiteLeaf(run: nat): nat {
    if run < 16 then WhiteLeaf0(run)
    else if run < 32 then WhiteLeaf16(run)
    else if run < 48 then WhiteLeaf32(run)
    else if run < 64 then WhiteLeaf48(run)
    else if run < 1088 then WhiteLeaf64(run)
    else if run < 2112 then WhiteLeaf1088(run)
    else WhiteLeaf2112(run)
  }

  function WhiteLeaf0(run: nat): nat {
    match run
    case 0 => 86 case 1 => 34 case 2 => 4 case 3 => 8 case 4 => 10 case 5 => 13 case 6 => 15 case 7 => 16
    case 8 => 18 case 9 => 20 case 10 => 24 case 11 => 27 case 12 => 37 case 13 => 40 case 14 => 42 case _ => 43
  }

  function WhiteLeaf16(run: nat): nat {
    match run
    case 16 => 45 case 17 => 46 case 18 => 55 case 19 => 57 case 20 => 60 case 21 => 63 case 22 => 66 case 23 => 68
    case 24 => 71 case 25 => 73 case 26 => 75 case 27 => 77 case 28 => 80 case 29 => 89 case 30 => 90 case _ => 92
  }

  function WhiteLeaf32(run: nat): nat {
    match run
    case 32 => 93 case 33 => 95 case 34 => 96 case 35 => 99 case 36 => 100 case 37 => 102 case 38 => 103
    case 39 => 106 case 40 => 107 case 41 => 109 case 42 => 110 case 43 => 112 case 44 => 113 case 45 => 115
    case 46 => 116 case _ => 118
  }

  function WhiteLeaf48(run: nat): nat {
    match run
    case 48 => 119 case 49 => 121 case 50 => 122 case 51 => 124 case 52 => 125 case 53 => 127 case 54 => 128
    case 55 => 131 case 56 => 132 case 57 => 134 case 58 => 135 case 59 => 137 case 60 => 138 case 61 => 140
    case 62 => 141 case _ => 142
  }

  function WhiteLeaf64(run: nat): nat {
    match run
    case 64 => 29 case 128 => 30 case 192 => 49 case 256 => 83 case 320 => 144 case 384 => 145 case 448 => 148
    case 512 => 149 case 576 => 152 case 640 => 154 case 704 => 156 case 768 => 157 case 832 => 159 case 896 => 160
    case 960 => 163 case _ => 164
  }

  function WhiteLeaf1088(run: nat): nat {
    match run
    case 1088 => 166 case 1152 => 167 case 1216 => 170 case 1280 => 171 case 1344 => 173 case 1408 => 174
    case 1472 => 177 case 1536 => 178 case 1600 => 180 case 1664 => 52 case 1728 => 181 case 1792 => 186
    case 1856 => 189 case 1920 => 190 case 1984 => 196 case _ => 197
  }

  function WhiteLeaf2112(run: nat): nat {
    match run
    case 2112 => 200 case 2176 => 201 case 2240 => 203 case 2304 => 204 case 2368 => 207 case 2432 => 208
    case 2496 => 210 case _ => 211
  }

  function BlackLabel(i: nat): Label {
    if i < 16 then BlackLabel0(i)
    else if i < 32 then BlackLabel16(i)
    else if i < 48 then BlackLabel32(i)
    else if i < 64 then BlackLabel48(i)
    else if i < 80 then BlackLabel64(i)
    else if i < 96 then BlackLabel80(i)
    else if i < 112 then BlackLabel96(i)
    else if i < 128 then BlackLabel112(i)
    else if i < 144 then BlackLabel128(i)
    else if i < 160 then BlackLabel144(i)
    else if i < 176 then BlackLabel160(i)
    else if i < 192 then BlackLabel176(i)
    else if i < 208 then BlackLabel192(i)
    else BlackLabel208(i)
  }

  function BlackLabel0(i: nat): Label {
    match i
    case 0 => Label(1, 0) case 1 => Label(1_1, 0) case 2 => Label(1_11, 1) case 3 => Label(1_10, 1)
    case 4 => Label(1_0, 0) case 5 => Label(1_01, 4) case 6 => Label(1_011, 5) case 7 => Label(1_010, 5)
    case 8 => Label(1_00, 4) case 9 => Label(1_001, 8) case 10 => Label(1_0011, 9) case 11 => Label(1_0010, 9)
    case 12 => Label(1_000, 8) case 13 => Label(1_0001, 12) case 14 => Label(1_00011, 13)
    case _ => Label(1_00010, 13)
  }

  function BlackLabel16(i: nat): Label {
    match i
    case 16 => Label(1_000101, 15) case 17 => Label(1_000100, 15) case 18 => Label(1_0000, 12)
    case 19 => Label(1_00001, 18) case 20 => Label(1_000010, 19) case 21 => Label(1_0000100, 20)
    case 22 => Label(1_0000101, 20) case 23 => Label(1_000011, 19) case 24 => Label(1_0000111, 23)
    case 25 => Label(1_00000, 18) case 26 => Label(1_000001, 25) case 27 => Label(1_0000010, 26)
    case 28 => Label(1_00000100, 27) case 29 => Label(1_0000011, 26) case 30 => Label(1_00000111, 29)
    case _ => Label(1_0000110, 23)
  }

  function BlackLabel32(i: nat): Label {
    match i
    case 32 => Label(1_00001100, 31) case 33 => Label(1_000011000, 32) case 34 => Label(1_00001101, 31)
    case 35 => Label(1_000011011, 34) case 36 => Label(1_0000110111, 35) case 37 => Label(1_00000101, 27)
    case 38 => Label(1_000001011, 37) case 39 => Label(1_0000010111, 38) case 40 => Label(1_00000110, 29)
    case 41 => Label(1_000001100, 40) case 42 => Label(1_0000011000, 41) case 43 => Label(1_000000, 25)
    case 44 => Label(1_0000001, 43) case 45 => Label(1_00000010, 44) case 46 => Label(1_000000100, 45)
    case _ => Label(1_0000001000, 46)
  }

  function BlackLabel48(i: nat): Label {
    match i
    case 48 => Label(1_00000011, 44) case 49 => Label(1_000000111, 48) case 50 => Label(1_0000001111, 49)
    case 51 => Label(1_000011001, 32) case 52 => Label(1_0000110011, 51) case 53 => Label(1_00001100111, 52)
    case 54 => Label(1_000011010, 34) case 55 => Label(1_0000110100, 54) case 56 => Label(1_00001101000, 55)
    case 57 => Label(1_0000110110, 35) case 58 => Label(1_00001101100, 57) case 59 => Label(1_000001101, 40)
    case 60 => Label(1_0000011011, 59) case 61 => Label(1_00000110111, 60) case 62 => Label(1_000001010, 37)
    case _ => Label(1_0000010100, 62)
  }

  function BlackLabel64(i: nat): Label {
    match i
    case 64 => Label(1_00000101000, 63) case 65 => Label(1_000000101, 45) case 66 => Label(1_0000001011, 65)
    case 67 => Label(1_00000010111, 66) case 68 => Label(1_000000110, 48) case 69 => Label(1_0000001100, 68)
    case 70 => Label(1_00000011000, 69) case 71 => Label(1_0000000, 43) case 72 => Label(1_00000001, 71)
    case 73 => Label(1_000000010, 72) case 74 => Label(1_0000000100, 73) case 75 => Label(1_00000001000, 74)
    case 76 => Label(1_000000011, 72) case 77 => Label(1_0000000110, 76) case 78 => Label(1_00000001100, 77)
    case _ => Label(1_00000001101, 77)
  }

  function BlackLabel80(i: nat): Label {
    match i
    case 80 => Label(1_00000000, 71) case 81 => Label(1_000000000, 80) case 82 => Label(1_0000000000, 81)
    case 83 => Label(1_00000000000, 82) case 84 => Label(1_0000110010, 51) case 85 => Label(1_00001100101, 84)
    case 86 => Label(1_000011001010, 85) case 87 => Label(1_000011001011, 85) case 88 => Label(1_00001100110, 52)
    case 89 => Label(1_000011001100, 88) case 90 => Label(1_000011001101, 88) case 91 => Label(1_0000011010, 59)
    case 92 => Label(1_00000110100, 91) case 93 => Label(1_000001101000, 92) case 94 => Label(1_000001101001, 92)
    case _ => Label(1_00000110101, 91)
  }

  function BlackLabel96(i: nat): Label {
    match i
    case 96 => Label(1_000001101010, 95) case 97 => Label(1_000001101011, 95) case 98 => Label(1_00001101001, 55)
    case 99 => Label(1_000011010010, 98) case 100 => Label(1_000011010011, 98) case 101 => Label(1_0000110101, 54)
    case 102 => Label(1_00001101010, 101) case 103 => Label(1_000011010100, 102)
    case 104 => Label(1_000011010101, 102) case 105 => Label(1_00001101011, 101)
    case 106 => Label(1_000011010110, 105) case 107 => Label(1_000011010111, 105)
    case 108 => Label(1_00000110110, 60) case 109 => Label(1_000001101100, 108)
    case 110 => Label(1_000001101101, 108) case _ => Label(1_00001101101, 57)
  }

  function BlackLabel112(i: nat): Label {
    match i
    case 112 => Label(1_000011011010, 111) case 113 => Label(1_000011011011, 111)
    case 114 => Label(1_0000010101, 62) case 115 => Label(1_00000101010, 114) case 116 => Label(1_000001010100, 115)
    case 117 => Label(1_000001010101, 115) case 118 => Label(1_00000101011, 114)
    case 119 => Label(1_000001010110, 118) case 120 => Label(1_000001010111, 118)
    case 121 => Label(1_0000011001, 41) case 122 => Label(1_00000110010, 121) case 123 => Label(1_000001100100, 122)
    case 124 => Label(1_000001100101, 122) case 125 => Label(1_00000101001, 63)
    case 126 => Label(1_000001010010, 125) case _ => Label(1_000001010011, 125)
  }

  function BlackLabel128(i: nat): Label {
    match i
    case 128 => Label(1_0000001001, 46) case 129 => Label(1_00000010010, 128) case 130 => Label(1_000000100100, 129)
    case 131 => Label(1_0000001101, 68) case 132 => Label(1_00000011011, 131) case 133 => Label(1_000000110111, 132)
    case 134 => Label(1_0000001110, 49) case 135 => Label(1_00000011100, 134) case 136 => Label(1_000000111000, 135)
    case 137 => Label(1_00000010011, 128) case 138 => Label(1_000000100111, 137) case 139 => Label(1_0000001010, 65)
    case 140 => Label(1_00000010100, 139) case 141 => Label(1_000000101000, 140) case 142 => Label(1_0000010110, 38)
    case _ => Label(1_00000101100, 142)
  }

  function BlackLabel144(i: nat): Label {
    match i
    case 144 => Label(1_000001011000, 143) case 145 => Label(1_000001011001, 143)
    case 146 => Label(1_00000010101, 139) case 147 => Label(1_000000101011, 146)
    case 148 => Label(1_00000010110, 66) case 149 => Label(1_000000101100, 148)
    case 150 => Label(1_00000101101, 142) case 151 => Label(1_000001011010, 150)
    case 152 => Label(1_00000110011, 121) case 153 => Label(1_000001100110, 152)
    case 154 => Label(1_000001100111, 152) case 155 => Label(1_00001100100, 84)
    case 156 => Label(1_000011001000, 155) case 157 => Label(1_000011001001, 155)
    case 158 => Label(1_000001011011, 150) case _ => Label(1_00000011001, 69)
  }

  function BlackLabel160(i: nat): Label {
    match i
    case 160 => Label(1_000000110011, 159) case 161 => Label(1_00000011010, 131)
    case 162 => Label(1_000000110100, 161) case 163 => Label(1_000000110101, 161)
    case 164 => Label(1_00000001001, 74) case 165 => Label(1_000000010010, 164)
    case 166 => Label(1_000000010011, 164) case 167 => Label(1_0000000101, 73) case 168 => Label(1_00000001010, 167)
    case 169 => Label(1_000000010100, 168) case 170 => Label(1_000000010101, 168)
    case 171 => Label(1_00000001011, 167) case 172 => Label(1_000000010110, 171)
    case 173 => Label(1_000000010111, 171) case 174 => Label(1_0000000111, 76) case _ => Label(1_00000001110, 174)
  }

  function BlackLabel176(i: nat): Label {
    match i
    case 176 => Label(1_000000011100, 175) case 177 => Label(1_000000011101, 175)
    case 178 => Label(1_00000001111, 174) case 179 => Label(1_000000011110, 178)
    case 180 => Label(1_000000011111, 178) case 181 => Label(1_000000110110, 132)
    case 182 => Label(1_0000001101100, 181) case 183 => Label(1_0000001101101, 181)
    case 184 => Label(1_000000100101, 129) case 185 => Label(1_0000001001010, 184)
    case 186 => Label(1_0000001001011, 184) case 187 => Label(1_000000100110, 137)
    case 188 => Label(1_0000001001100, 187) case 189 => Label(1_0000001001101, 187)
    case 190 => Label(1_000000111001, 135) case _ => Label(1_0000001110010, 190)
  }

  function BlackLabel192(i: nat): Label {
    match i
    case 192 => Label(1_0000001110011, 190) case 193 => Label(1_00000011101, 134)
    case 194 => Label(1_000000111010, 193) case 195 => Label(1_0000001110100, 194)
    case 196 => Label(1_0000001110101, 194) case 197 => Label(1_000000111011, 193)
    case 198 => Label(1_0000001110110, 197) case 199 => Label(1_0000001110111, 197)
    case 200 => Label(1_000000101001, 140) case 201 => Label(1_0000001010010, 200)
    case 202 => Label(1_0000001010011, 200) case 203 => Label(1_000000101010, 146)
    case 204 => Label(1_0000001010100, 203) case 205 => Label(1_0000001010101, 203)
    case 206 => Label(1_000000101101, 148) case _ => Label(1_0000001011010, 206)
  }

  function BlackLabel208(i: nat): Label {
    match i
    case 208 => Label(1_0000001011011, 206) case 209 => Label(1_000000110010, 159)
    case 210 => Label(1_0000001100100, 209) case _ => Label(1_0000001100101, 209)
  }

  function BlackLeaf(run: nat): nat {
    if run < 16 then BlackLeaf0(run)
    else if run < 32 then BlackLeaf16(run)
    else if run < 48 then BlackLeaf32(run)
    else if run < 64 then BlackLeaf48(run)
    else if run < 1088 then BlackLeaf64(run)
    else if run < 2112 then BlackLeaf1088(run)
    else BlackLeaf2112(run)
  }

  function BlackLeaf0(run: nat): nat {
    match run
    case 0 => 36 case 1 => 7 case 2 => 2 case 3 => 3 case 4 => 6 case 5 => 10 case 6 => 11 case 7 => 14 case 8 => 16
    case 9 => 17 case 10 => 21 case 11 => 22 case 12 => 24 case 13 => 28 case 14 => 30 case _ => 33
  }

  function BlackLeaf16(run: nat): nat {
    match run
    case 16 => 39 case 17 => 42 case 18 => 47 case 19 => 53 case 20 => 56 case 21 => 58 case 22 => 61 case 23 => 64
    case 24 => 67 case 25 => 70 case 26 => 86 case 27 => 87 case 28 => 89 case 29 => 90 case 30 => 93 case _ => 94
  }

  function BlackLeaf32(run: nat): nat {
    match run
    case 32 => 96 case 33 => 97 case 34 => 99 case 35 => 100 case 36 => 103 case 37 => 104 case 38 => 106
    case 39 => 107 case 40 => 109 case 41 => 110 case 42 => 112 case 43 => 113 case 44 => 116 case 45 => 117
    case 46 => 119 case _ => 120
  }

  function BlackLeaf48(run: nat): nat {
    match run
    case 48 => 123 case 49 => 124 case 50 => 126 case 51 => 127 case 52 => 130 case 53 => 133 case 54 => 136
    case 55 => 138 case 56 => 141 case 57 => 144 case 58 => 145 case 59 => 147 case 60 => 149 case 61 => 151
    case 62 => 153 case _ => 154
  }

  function BlackLeaf64(run: nat): nat {
    match run
    case 64 => 50 case 128 => 156 case 192 => 157 case 256 => 158 case 320 => 160 case 384 => 162 case 448 => 163
    case 512 => 182 case 576 => 183 case 640 => 185 case 704 => 186 case 768 => 188 case 832 => 189 case 896 => 191
    case 960 => 192 case _ => 195
  }

  function BlackLeaf1088(run: nat): nat {
    match run
    case 1088 => 196 case 1152 => 198 case 1216 => 199 case 1280 => 201 case 1344 => 202 case 1408 => 204
    case 1472 => 205 case 1536 => 207 case 1600 => 208 case 1664 => 210 case 1728 => 211 case 1792 => 75
    case 1856 => 78 case 1920 => 79 case 1984 => 165 case _ => 166
  }

  function BlackLeaf2112(run: nat): nat {
    match run
    case 2112 => 169 case 2176 => 170 case 2240 => 172 case 2304 => 173 case 2368 => 176 case 2432 => 177
    case 2496 => 179 case _ => 180
  }

  function LabelOf(white: bool, i: nat): Label {
    if white then WhiteLabel(i) else BlackLabel(i)
  }

  function NodeOf(white: bool, i: nat): INode {
    if white then WhiteNode(i) else BlackNode(i)
  }

  /** A leaf that stands for a run lies where the run's code word leads. */
  predicate IsLeaf(white: bool, run: nat, c: nat)
    requires IsRun(run)
  {
    && 0 < c < NODES && NodeOf(white, c).token == run && LabelOf(white, c).word == Word(white, run)
  }

  /** No leaf stands for anything else. */
  predicate TokenOk(white: bool, i: nat) {
    var token := NodeOf(white, i).token;
    token < 0 || token == EOL || (IsRun(token) && LabelOf(white, i).word == Word(white, token))
  }

  const WhiteLabels: seq<Label> := seq(NODES, (i: nat) requires i < NODES => WhiteLabel(i))

  lemma WhiteLabels0(i: nat)
    requires 0 <= i < 8
    ensures LabelOk(WhiteHUFS, WhiteLabels, i)
  {}

  lemma WhiteLabels8(i: nat)
    requires 8 <= i < 16
    ensures LabelOk(WhiteHUFS, WhiteLabels, i)
  {}

  lemma WhiteLabels16(i: nat)
    requires 16 <= i < 24
    ensures LabelOk(WhiteHUFS, WhiteLabels, i)
  {}

  lemma WhiteLabels24(i: nat)
    requires 24 <= i < 32
    ensures LabelOk(WhiteHUFS, WhiteLabels, i)
  {}

  lemma WhiteLabels32(i: nat)
    requires 32 <= i < 40
    ensures LabelOk(WhiteHUFS, WhiteLabels, i)
  {}

  lemma WhiteLabels40(i: nat)
    requires 40 <= i < 48
    ensures LabelOk(WhiteHUFS, WhiteLabels, i)
  {}

  lemma WhiteLabels48(i: nat)
    requires 48 <= i < 56
    ensures LabelOk(WhiteHUFS, WhiteLabels, i)
  {}

  lemma WhiteLabels56(i: nat)
    requires 56 <= i < 64
    ensures LabelOk(WhiteHUFS, WhiteLabels, i)
  {}

  lemma WhiteLabels64(i: nat)
    requires 64 <= i < 72
    ensures LabelOk(WhiteHUFS, WhiteLabels, i)
  {}

  lemma WhiteLabels72(i: nat)
    requires 72 <= i < 80
    ensures LabelOk(WhiteHUFS, WhiteLabels, i)
  {}

  lemma WhiteLabels80(i: nat)
    requires 80 <= i < 88
    ensures LabelOk(WhiteHUFS, WhiteLabels, i)
  {}

  lemma WhiteLabels88(i: nat)
    requires 88 <= i < 96
    ensures LabelOk(WhiteHUFS, WhiteLabels, i)
  {}

  lemma WhiteLabels96(i: nat)
    requires 96 <= i < 104
    ensures LabelOk(WhiteHUFS, WhiteLabels, i)
  {}

  lemma WhiteLabels104(i: nat)
    requires 104 <= i < 112
    ensures LabelOk(WhiteHUFS, WhiteLabels, i)
  {}

  lemma WhiteLabels112(i: nat)
    requires 112 <= i < 120
    ensures LabelOk(WhiteHUFS, WhiteLabels, i)
  {}

  lemma WhiteLabels120(i: nat)
    requires 120 <= i < 128
    ensures LabelOk(WhiteHUFS, WhiteLabels, i)
  {}

  lemma WhiteLabels128(i: nat)
    requires 128 <= i < 136
    ensures LabelOk(WhiteHUFS, WhiteLabels, i)
  {}

  lemma WhiteLabels136(i: nat)
    requires 136 <= i < 144
    ensures LabelOk(WhiteHUFS, WhiteLabels, i)
  {}

  lemma WhiteLabels144(i: nat)
    requires 144 <= i < 152
    ensures LabelOk(WhiteHUFS, WhiteLabels, i)
  {}

  lemma WhiteLabels152(i: nat)
    requires 152 <= i < 160
    ensures LabelOk(WhiteHUFS, WhiteLabels, i)
  {}

  lemma WhiteLabels160(i: nat)
    requires 160 <= i < 168
    ensures LabelOk(WhiteHUFS, WhiteLabels, i)
  {}

  lemma WhiteLabels168(i: nat)
    requires 168 <= i < 176
    ensures LabelOk(WhiteHUFS, WhiteLabels, i)
  {}

  lemma WhiteLabels176(i: nat)
    requires 176 <= i < 184
    ensures LabelOk(WhiteHUFS, WhiteLabels, i)
  {}

  lemma WhiteLabels184(i: nat)
    requires 184 <= i < 192
    ensures LabelOk(WhiteHUFS, WhiteLabels, i)
  {}

  lemma WhiteLabels192(i: nat)
    requires 192 <= i < 200
    ensures LabelOk(WhiteHUFS, WhiteLabels, i)
  {}

  lemma WhiteLabels200(i: nat)
    requires 200 <= i < 208
    ensures LabelOk(WhiteHUFS, WhiteLabels, i)
  {}

  lemma WhiteLabels208(i: nat)
    requires 208 <= i < 212
    ensures LabelOk(WhiteHUFS, WhiteLabels, i)
  {}

  lemma WhiteLeaf0Is(run: nat)
    requires IsRun(run) && 0 <= run < 16
    ensures IsLeaf(true, run, WhiteLeaf(run))
  {}

  lemma WhiteLeaf16Is(run: nat)
    requires IsRun(run) && 16 <= run < 32
    ensures IsLeaf(true, run, WhiteLeaf(run))
  {}

  lemma WhiteLeaf32Is(run: nat)
    requires IsRun(run) && 32 <= run < 48
    ensures IsLeaf(true, run, WhiteLeaf(run))
  {}

  lemma WhiteLeaf48Is(run: nat)
    requires IsRun(run) && 48 <= run < 64
    ensures IsLeaf(true, run, WhiteLeaf(run))
  {}

  lemma WhiteLeaf64Is(run: nat)
    requires IsRun(run) && 64 <= run < 1088
    ensures IsLeaf(true, run, WhiteLeaf(run))
  {}

  lemma WhiteLeaf1088Is(run: nat)
    requires IsRun(run) && 1088 <= run < 2112
    ensures IsLeaf(true, run, WhiteLeaf(run))
  {}

  lemma WhiteLeaf2112Is(run: nat)
    requires IsRun(run) && 2112 <= run < 2561
    ensures IsLeaf(true, run, WhiteLeaf(run))
  {}

  lemma WhiteTokens0(i: nat)
    requires 0 <= i < 32
    ensures TokenOk(true, i)
  {}

  lemma WhiteTokens32(i: nat)
    requires 32 <= i < 64
    ensures TokenOk(true, i)
  {}

  lemma WhiteTokens64(i: nat)
    requires 64 <= i < 96
    ensures TokenOk(true, i)
  {}

  lemma WhiteTokens96(i: nat)
    requires 96 <= i < 128
    ensures TokenOk(true, i)
  {}

  lemma WhiteTokens128(i: nat)
    requires 128 <= i < 160
    ensures TokenOk(true, i)
  {}

  lemma WhiteTokens160(i: nat)
    requires 160 <= i < 192
    ensures TokenOk(true, i)
  {}

  lemma WhiteTokens192(i: nat)
    requires 192 <= i < 212
    ensures TokenOk(true, i)
  {}

  const BlackLabels: seq<Label> := seq(NODES, (i: nat) requires i < NODES => BlackLabel(i))

  lemma BlackLabels0(i: nat)
    requires 0 <= i < 8
    ensures LabelOk(BlackHUFS, BlackLabels, i)
  {}

  lemma BlackLabels8(i: nat)
    requires 8 <= i < 16
    ensures LabelOk(BlackHUFS, BlackLabels, i)
  {}

  lemma BlackLabels16(i: nat)
    requires 16 <= i < 24
    ensures LabelOk(BlackHUFS, BlackLabels, i)
  {}

  lemma BlackLabels24(i: nat)
    requires 24 <= i < 32
    ensures LabelOk(BlackHUFS, BlackLabels, i)
  {}

  lemma BlackLabels32(i: nat)
    requires 32 <= i < 40
    ensures LabelOk(BlackHUFS, BlackLabels, i)
  {}

  lemma BlackLabels40(i: nat)
    requires 40 <= i < 48
    ensures LabelOk(BlackHUFS, BlackLabels, i)
  {}

  lemma BlackLabels48(i: nat)
    requires 48 <= i < 56
    ensures LabelOk(BlackHUFS, BlackLabels, i)
  {}

  lemma BlackLabels56(i: nat)
    requires 56 <= i < 64
    ensures LabelOk(BlackHUFS, BlackLabels, i)
  {}

  lemma BlackLabels64(i: nat)
    requires 64 <= i < 72
    ensures LabelOk(BlackHUFS, BlackLabels, i)
  {}

  lemma BlackLabels72(i: nat)
    requires 72 <= i < 80
    ensures LabelOk(BlackHUFS, BlackLabels, i)
  {}

  lemma BlackLabels80(i: nat)
    requires 80 <= i < 88
    ensures LabelOk(BlackHUFS, BlackLabels, i)
  {}

  lemma BlackLabels88(i: nat)
    requires 88 <= i < 96
    ensures LabelOk(BlackHUFS, BlackLabels, i)
  {}

  lemma BlackLabels96(i: nat)
    requires 96 <= i < 104
    ensures LabelOk(BlackHUFS, BlackLabels, i)
  {}

  lemma BlackLabels104(i: nat)
    requires 104 <= i < 112
    ensures LabelOk(BlackHUFS, BlackLabels, i)
  {}

  lemma BlackLabels112(i: nat)
    requires 112 <= i < 120
    ensures LabelOk(BlackHUFS, BlackLabels, i)
  {}

  lemma BlackLabels120(i: nat)
    requires 120 <= i < 128
    ensures LabelOk(BlackHUFS, BlackLabels, i)
  {}

  lemma BlackLabels128(i: nat)
    requires 128 <= i < 136
    ensures LabelOk(BlackHUFS, BlackLabels, i)
  {}

  lemma BlackLabels136(i: nat)
    requires 136 <= i < 144
    ensures LabelOk(BlackHUFS, BlackLabels, i)
  {}

  lemma BlackLabels144(i: nat)
    requires 144 <= i < 152
    ensures LabelOk(BlackHUFS, BlackLabels, i)
  {}

  lemma BlackLabels152(i: nat)
    requires 152 <= i < 160
    ensures LabelOk(BlackHUFS, BlackLabels, i)
  {}

  lemma BlackLabels160(i: nat)
    requires 160 <= i < 168
    ensures LabelOk(BlackHUFS, BlackLabels, i)
  {}

  lemma BlackLabels168(i: nat)
    requires 168 <= i < 176
    ensures LabelOk(BlackHUFS, BlackLabels, i)
  {}

  lemma BlackLabels176(i: nat)
    requires 176 <= i < 184
    ensures LabelOk(BlackHUFS, BlackLabels, i)
  {}

  lemma BlackLabels184(i: nat)
    requires 184 <= i < 192
    ensures LabelOk(BlackHUFS, BlackLabels, i)
  {}

  lemma BlackLabels192(i: nat)
    requires 192 <= i < 200
    ensures LabelOk(BlackHUFS, BlackLabels, i)
  {}

  lemma BlackLabels200(i: nat)
    requires 200 <= i < 208
    ensures LabelOk(BlackHUFS, BlackLabels, i)
  {}

  lemma BlackLabels208(i: nat)
    requires 208 <= i < 212
    ensures LabelOk(BlackHUFS, BlackLabels, i)
  {}

  lemma BlackLeaf0Is(run: nat)
    requires IsRun(run) && 0 <= run < 16
    ensures IsLeaf(false, run, BlackLeaf(run))
  {}

  lemma BlackLeaf16Is(run: nat)
    requires IsRun(run) && 16 <= run < 32
    ensures IsLeaf(false, run, BlackLeaf(run))
  {}

  lemma BlackLeaf32Is(run: nat)
    requires IsRun(run) && 32 <= run < 48
    ensures IsLeaf(false, run, BlackLeaf(run))
  {}

  lemma BlackLeaf48Is(run: nat)
    requires IsRun(run) && 48 <= run < 64
    ensures IsLeaf(false, run, BlackLeaf(run))
  {}

  lemma BlackLeaf64Is(run: nat)
    requires IsRun(run) && 64 <= run < 1088
    ensures IsLeaf(false, run, BlackLeaf(run))
  {}

  lemma BlackLeaf1088Is(run: nat)
    requires IsRun(run) && 1088 <= run < 2112
    ensures IsLeaf(false, run, BlackLeaf(run))
  {}

  lemma BlackLeaf2112Is(run: nat)
    requires IsRun(run) && 2112 <= run < 2561
    ensures IsLeaf(false, run, BlackLeaf(run))
  {}

  lemma BlackTokens0(i: nat)
    requires 0 <= i < 32
    ensures TokenOk(false, i)
  {}

  lemma BlackTokens32(i: nat)
    requires 32 <= i < 64
    ensures TokenOk(false, i)
  {}

  lemma BlackTokens64(i: nat)
    requires 64 <= i < 96
    ensures TokenOk(false, i)
  {}

  lemma BlackTokens96(i: nat)
    requires 96 <= i < 128
    ensures TokenOk(false, i)
  {}

  lemma BlackTokens128(i: nat)
    requires 128 <= i < 160
    ensures TokenOk(false, i)
  {}

  lemma BlackTokens160(i: nat)
    requires 160 <= i < 192
    ensures TokenOk(false, i)
  {}

  lemma BlackTokens192(i: nat)
    requires 192 <= i < 212
    ensures TokenOk(false, i)
  {}

  lemma WhiteLabelled()
    ensures Labelled(WhiteHUFS, WhiteLabels)
  {
    forall i | 0 <= i < NODES ensures LabelOk(WhiteHUFS, WhiteLabels, i) {
      if i < 8 { WhiteLabels0(i); }
      else if i < 16 { WhiteLabels8(i); }
      else if i < 24 { WhiteLabels16(i); }
      else if i < 32 { WhiteLabels24(i); }
      else if i < 40 { WhiteLabels32(i); }
      else if i < 48 { WhiteLabels40(i); }
      else if i < 56 { WhiteLabels48(i); }
      else if i < 64 { WhiteLabels56(i); }
      else if i < 72 { WhiteLabels64(i); }
      else if i < 80 { WhiteLabels72(i); }
      else if i < 88 { WhiteLabels80(i); }
      else if i < 96 { WhiteLabels88(i); }
      else if i < 104 { WhiteLabels96(i); }
      else if i < 112 { WhiteLabels104(i); }
      else if i < 120 { WhiteLabels112(i); }
      else if i < 128 { WhiteLabels120(i); }
      else if i < 136 { WhiteLabels128(i); }
      else if i < 144 { WhiteLabels136(i); }
      else if i < 152 { WhiteLabels144(i); }
      else if i < 160 { WhiteLabels152(i); }
      else if i < 168 { WhiteLabels160(i); }
      else if i < 176 { WhiteLabels168(i); }
      else if i < 184 { WhiteLabels176(i); }
      else if i < 192 { WhiteLabels184(i); }
      else if i < 200 { WhiteLabels192(i); }
      else if i < 208 { WhiteLabels200(i); }
      else { WhiteLabels208(i); }
    }
  }

  lemma WhiteLeaves(run: nat)
    requires IsRun(run)
    ensures IsLeaf(true, run, WhiteLeaf(run))
  {
    if run < 16 { WhiteLeaf0Is(run); }
    else if run < 32 { WhiteLeaf16Is(run); }
    else if run < 48 { WhiteLeaf32Is(run); }
    else if run < 64 { WhiteLeaf48Is(run); }
    else if run < 1088 { WhiteLeaf64Is(run); }
    else if run < 2112 { WhiteLeaf1088Is(run); }
    else { WhiteLeaf2112Is(run); }
  }

  lemma WhiteTokens(i: nat)
    requires i < NODES
    ensures TokenOk(true, i)
  {
    if i < 32 { WhiteTokens0(i); }
    else if i < 64 { WhiteTokens32(i); }
    else if i < 96 { WhiteTokens64(i); }
    else if i < 128 { WhiteTokens96(i); }
    else if i < 160 { WhiteTokens128(i); }
    else if i < 192 { WhiteTokens160(i); }
    else { WhiteTokens192(i); }
  }

  lemma BlackLabelled()
    ensures Labelled(BlackHUFS, BlackLabels)
  {
    forall i | 0 <= i < NODES ensures LabelOk(BlackHUFS, BlackLabels, i) {
      if i < 8 { BlackLabels0(i); }
      else if i < 16 { BlackLabels8(i); }
      else if i < 24 { BlackLabels16(i); }
      else if i < 32 { BlackLabels24(i); }
      else if i < 40 { BlackLabels32(i); }
      else if i < 48 { BlackLabels40(i); }
      else if i < 56 { BlackLabels48(i); }
      else if i < 64 { BlackLabels56(i); }
      else if i < 72 { BlackLabels64(i); }
      else if i < 80 { BlackLabels72(i); }
      else if i < 88 { BlackLabels80(i); }
      else if i < 96 { BlackLabels88(i); }
      else if i < 104 { BlackLabels96(i); }
      else if i < 112 { BlackLabels104(i); }
      else if i < 120 { BlackLabels112(i); }
      else if i < 128 { BlackLabels120(i); }
      else if i < 136 { BlackLabels128(i); }
      else if i < 144 { BlackLabels136(i); }
      else if i < 152 { BlackLabels144(i); }
      else if i < 160 { BlackLabels152(i); }
      else if i < 168 { BlackLabels160(i); }
      else if i < 176 { BlackLabels168(i); }
      else if i < 184 { BlackLabels176(i); }
      else if i < 192 { BlackLabels184(i); }
      else if i < 200 { BlackLabels192(i); }
      else if i < 208 { BlackLabels200(i); }
      else { BlackLabels208(i); }
    }
  }

  lemma BlackLeaves(run: nat)
    requires IsRun(run)
    ensures IsLeaf(false, run, BlackLeaf(run))
  {
    if run < 16 { BlackLeaf0Is(run); }
    else if run < 32 { BlackLeaf16Is(run); }
    else if run < 48 { BlackLeaf32Is(run); }
    else if run < 64 { BlackLeaf48Is(run); }
    else if run < 1088 { BlackLeaf64Is(run); }
    else if run < 2112 { BlackLeaf1088Is(run); }
    else { BlackLeaf2112Is(run); }
  }

  lemma BlackTokens(i: nat)
    requires i < NODES
    ensures TokenOk(false, i)
  {
    if i < 32 { BlackTokens0(i); }
    else if i < 64 { BlackTokens32(i); }
    else if i < 96 { BlackTokens64(i); }
    else if i < 128 { BlackTokens96(i); }
    else if i < 160 { BlackTokens128(i); }
    else if i < 192 { BlackTokens160(i); }
    else { BlackTokens192(i); }
  }

  // ---- the code words ------------------------------------------------------------------------

  /** Every run of the tables of T.4 is what its code word stands for in the program's tree. */
  lemma CodeOfRun(white: bool, run: nat)
    requires IsRun(run)
    ensures IsCode(HufTrees.Of(white), 0, Code(white, run))
    ensures RunLength(HufTrees.Of(white), 0, Code(white, run)) == run
  {
    if white {
      WhiteLabelled();
      WhiteLeaves(run);
      LeafLeads(WhiteHUFS, WhiteLabels, WhiteLeaf(run));
    } else {
      BlackLabelled();
      BlackLeaves(run);
      LeafLeads(BlackHUFS, BlackLabels, BlackLeaf(run));
    }
  }

  /** And there is no other code word. */
  lemma RunOfCode(white: bool, w: seq<bool>)
    requires IsCode(HufTrees.Of(white), 0, w)
    ensures var run := RunLength(HufTrees.Of(white), 0, w); IsRun(run) && w == Code(white, run)
  {
    assert Digits(1) == [] && [] + w == w;
    if white {
      WhiteLabelled();
      assert LabelOk(WhiteHUFS, WhiteLabels, 0);
      LeafLabel(WhiteHUFS, WhiteLabels, 0, w);
      WhiteTokens(Leaf(WhiteHUFS, 0, w));
    } else {
      BlackLabelled();
      assert LabelOk(BlackHUFS, BlackLabels, 0);
      LeafLabel(BlackHUFS, BlackLabels, 0, w);
      BlackTokens(Leaf(BlackHUFS, 0, w));
    }
  }

  /** The trees hold the code words of T.4, no more and no fewer, each for its run. */
  lemma CodesAreT4(white: bool, w: seq<bool>)
    ensures IsCode(HufTrees.Of(white), 0, w) <==> exists run: nat :: IsRun(run) && w == Code(white, run)
    ensures forall run: nat | IsRun(run) && w == Code(white, run) ::
              IsCode(HufTrees.Of(white), 0, w) && RunLength(HufTrees.Of(white), 0, w) == run
  {
    if IsCode(HufTrees.Of(white), 0, w) {
      RunOfCode(white, w);
    }
    forall run: nat | IsRun(run) && w == Code(white, run)
      ensures IsCode(HufTrees.Of(white), 0, w) && RunLength(HufTrees.Of(white), 0, w) == run
    {
      CodeOfRun(white, run);
    }
  }
}
